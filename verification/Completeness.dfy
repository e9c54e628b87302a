/** End to end: an honest browser signs up and later logs in, among any other requests
    (signup_html/calc_passHash.js, src/sess_handle_new_request.c,
    src/http_server_main_loop_handler.c, src/calc_hash_for_login.c). */
module Completeness {
  import opened Common
  import opened RedisStore
  import opened TextScan
  import opened HttpText
  import opened HttpParser
  import opened Validators
  import opened Hashing
  import opened Cookies
  import opened PostPath
  import opened Protocol
  import opened History
  import opened GateHistory
  import opened WindowBound
  import opened SignupRules
  import opened Client

  // ----- One gate call -----

  /** The counter, if alive, stands at n at most. */
  ghost predicate Room(w: World, ty: PostType, ip: string, n: int) {
    var entry := CounterEntry(w, ty, ip);
    entry.Some? ==> entry.value.value.Count? && entry.value.value.n <= n
  }

  /** No flag of the address is alive now or later. */
  ghost predicate FlagGone(w: World, ip: string) {
    var entry := At(w.store, IpCountDb(Signup), OkKey(Signup, ip));
    entry.Some? ==> !AliveAt(entry.value, w.now)
  }

  lemma CountOnce(tape: Tape, w: World, ty: PostType, ip: string, n: int)
    requires IpText(ip) && SmoothFor(tape, w.pos, 3) && Room(w, ty, ip, n) && 0 <= n
    ensures var count := Increment(tape, w, IpCountDb(ty), SIGNUP_FAILED_TTL, FailedKey(ty, ip));
            count.rt == 0 && count.n <= n + 1 && Room(count.w, ty, ip, n + 1) && count.w.pos == w.pos + 3
  {
    assert Smooth(tape(w.pos)) && Smooth(tape(w.pos + 1)) && Smooth(tape(w.pos + 2));
  }

  lemma GateOpens(tape: Tape, w: World, ty: PostType, ip: string, n: int)
    requires IpText(ip) && SmoothFor(tape, w.pos, 5) && 0 <= n < MaxAllowed(ty) && Room(w, ty, ip, n)
    requires ty == Signup ==> FlagGone(w, ip)
    ensures var gate := CheckIp(tape, w, IpCountDb(ty), ty, ip);
            gate.rt == 0 && Room(gate.w, ty, ip, n + 1) && gate.w.pos == w.pos + 5 && w.now <= gate.w.now
  {
    hide GetInt, Connect, Increment, Live;
    var flag := FlagLookup(tape, w, ty, ip);
    if ty == Signup { GoneFlagIsDead(w, ip, LookTime(tape, w)); }
    CountOnce(tape, flag.w, ty, ip, n);
    GateFrame(tape, w, ty, ip, -1, FailedKey(ty, ip));
  }

  lemma GoneFlagIsDead(w: World, ip: string, now: int)
    requires FlagGone(w, ip) && w.now <= now
    ensures !Live(w.store, IpCountDb(Signup), OkKey(Signup, ip), now)
  {
  }

  // ----- What each of the four requests leaves behind -----

  /** The session stands in the store until `until` at least. */
  ghost predicate SessionKept(w: World, ty: PostType, user: string, salt: string, sess: string, until: int) {
    var entry := At(w.store, IpCountDb(ty), SessKey(ty, user, salt));
    entry.Some? && entry.value.value == Text(sess) && entry.value.expiry.Some? && until <= entry.value.expiry.value
  }

  /** The record holds this hash and salt until `until` at least. */
  ghost predicate RecordKept(w: World, user: string, tag: string, salt: string, until: int) {
    var entry := RecordOf(w, user);
    Holds(entry, tag, salt) && entry.value.expiry.Some? && until <= entry.value.expiry.value
  }

  ghost predicate RecordGone(w: World, user: string) {
    RecordOf(w, user).Some? ==> !AliveAt(RecordOf(w, user).value, w.now)
  }

  lemma SessionIssued(env: Env, w: World, ty: PostType, rq: Request, user: string)
    requires Smooth(env.tape(w.pos)) && HexToken(rq.sess, SALT_LEN)
    ensures var put :=
            SetHset(env.tape, w, IpCountDb(ty), SESS_TTL, SetEx(SessKey(ty, user, rq.sesv), rq.sess, SESS_TTL));
            && put.rt == 0 && put.w.pos == w.pos + 1 && put.w.now == w.now + env.tape(w.pos).wait
            && SessionKept(put.w, ty, user, rq.sesv, rq.sess, w.now + 300_000)
  {
  }

  lemma RecordSaltRead(tape: Tape, w: World, user: string, tag: string, salt: string, until: int)
    requires Smooth(tape(w.pos)) && RecordKept(w, user, tag, salt, until) && w.now + tape(w.pos).wait < until
    requires |salt| == SALT_LEN
    ensures var got := GetString(tape, w, SALT_LOGIN_DB, SALT_LEN, HGet(UserKey(Login, user), "salt"));
            && got.rt == 0 && got.s == salt && got.w.store == w.store && got.w.pos == w.pos + 1
            && got.w.now == w.now + tape(w.pos).wait
  {
    assert "salt" in NewRecord(tag, salt);
  }

  lemma RecordHashRead(tape: Tape, w: World, user: string, tag: string, salt: string, until: int)
    requires Smooth(tape(w.pos)) && RecordKept(w, user, tag, salt, until) && w.now + tape(w.pos).wait < until
    requires |tag| == PASSWD_LEN
    ensures var got := GetString(tape, w, SALT_LOGIN_DB, PASSWD_LEN, HGet(UserKey(Login, user), "hash"));
            && got.rt == 0 && got.s == tag && got.w.store == w.store && got.w.pos == w.pos + 1
            && got.w.now == w.now + tape(w.pos).wait
  {
    assert "hash" in NewRecord(tag, salt);
  }

  /** A request that arrived as a well-formed message of its type. */
  ghost predicate Arrived(rq: Request, ty: PostType, ip: string) {
    Classify(rq.buffer) == Accepted(ty) && HeadEnd(rq.buffer).Some? && rq.ip == ip
  }

  /** Asking for a signup session. */
  lemma SignupAsked(env: Env, w: World, rq: Request, user: string, ip: string, n: int)
    requires CleanUser(user) && Arrived(rq, Signup, ip) && rq.json == Some(AskBody(user))
    requires IpText(ip) && HexToken(rq.sess, SALT_LEN)
    requires SmoothFor(env.tape, w.pos, 12) && 0 <= n < MaxAllowed(Signup)
    requires Room(w, Signup, ip, n) && FlagGone(w, ip)
    ensures var h := Serve(env, w, rq);
            && h.rt == 1 && h.sent == [Session(Signup, rq.sess, rq.sesv, None)]
            && SessionKept(h.w, Signup, user, rq.sesv, rq.sess, w.now + 300_000)
            && Room(h.w, Signup, ip, n + 1)
  {
    hide CheckIp, SetHset, Room, SessionKept, FlagGone, ParseSession, Classify, HeadEnd;
    GateOpens(env.tape, w, Signup, ip, n);
    var gate := CheckIp(env.tape, w, IpCountDb(Signup), Signup, ip);
    AskIsUnderstood(Signup, user);
    SessionIssued(env, gate.w, Signup, rq, user);
    BehindGateFrame(env, gate.w, Signup, rq, IpCountDb(Signup), FailedKey(Signup, ip));
    RoomStays(gate.w, AfterGate(env, gate.w, Signup, rq).w, Signup, ip, n + 1);
    KeptLonger(AfterGate(env, gate.w, Signup, rq).w, Signup, user, rq.sesv, rq.sess, gate.w.now + 300_000,
               w.now + 300_000);
  }

  lemma RoomStays(w: World, w': World, ty: PostType, ip: string, n: int)
    requires Room(w, ty, ip, n) && Untouched(w, w', IpCountDb(ty), FailedKey(ty, ip))
    ensures Room(w', ty, ip, n)
  {
  }

  lemma KeptLonger(w: World, ty: PostType, user: string, salt: string, sess: string, until: int, sooner: int)
    requires SessionKept(w, ty, user, salt, sess, until) && sooner <= until
    ensures SessionKept(w, ty, user, salt, sess, sooner)
  {
  }

  lemma SessionStays(w: World, w': World, ty: PostType, user: string, salt: string, sess: string, until: int)
    requires SessionKept(w, ty, user, salt, sess, until) && Untouched(w, w', IpCountDb(ty), SessKey(ty, user, salt))
    ensures SessionKept(w', ty, user, salt, sess, until)
  {
  }

  lemma RecordStays(w: World, w': World, user: string, tag: string, salt: string, until: int)
    requires RecordKept(w, user, tag, salt, until) && Untouched(w, w', SALT_LOGIN_DB, UserKey(Login, user))
    ensures RecordKept(w', user, tag, salt, until)
  {
  }

  /** The session check lets a kept session with its cookie through. */
  lemma SessionAccepted(env: Env, w: World, ty: PostType, rq: Request, user: string, salt: string, sess: string,
                        until: int)
    requires Smooth(env.tape(w.pos)) && HexToken(sess, SALT_LEN)
    requires SessionKept(w, ty, user, salt, sess, until) && CheckSession(env, w, ty, rq, user, salt).w.now < until
    requires CookieOf(ty, rq) == Found(sess)
    ensures var h := CheckSession(env, w, ty, rq, user, salt);
            && h.rt == 0 && h.w.store == w.store && h.w.pos == w.pos + 1 && h.w.now == w.now + env.tape(w.pos).wait
  {
    hide CookieOf;
  }

  /** What is common to the two submissions: gate and session check are passed, and the
      record check goes on from a store that differs in the counter only. */
  lemma Submitted(env: Env, w: World, ty: PostType, rq: Request, ip: string, n: int,
                  user: string, tag: string, salt: string, sess: string, until: int) returns (w1: World)
    requires Arrived(rq, ty, ip) && ParseSession(ty, rq.json) == Submit(user, tag, salt)
    requires CookieOf(ty, rq) == Found(sess) && IpText(ip)
    requires SmoothFor(env.tape, w.pos, 12) && 0 <= n < MaxAllowed(ty) && Room(w, ty, ip, n)
    requires ty == Signup ==> FlagGone(w, ip)
    requires HexToken(sess, SALT_LEN) && SessionKept(w, ty, user, salt, sess, until) && Serve(env, w, rq).w.now < until
    ensures Serve(env, w, rq) == CheckRecord(env, w1, ty, rq, user, tag, salt)
    ensures w1.pos == w.pos + 6 && w.now <= w1.now <= Serve(env, w, rq).w.now
    ensures forall u, t :: At(w1.store, SALT_LOGIN_DB, UserKey(t, u)) == At(w.store, SALT_LOGIN_DB, UserKey(t, u))
  {
    hide CheckIp, CheckSession, CheckRecord, Room, SessionKept, FlagGone, ParseSession, Classify, HeadEnd, CookieOf,
      At, Trace;
    GateOpens(env.tape, w, ty, ip, n);
    var gate := CheckIp(env.tape, w, IpCountDb(ty), ty, ip);
    GateFrame(env.tape, w, ty, ip, IpCountDb(ty), SessKey(ty, user, salt));
    SessionStays(w, gate.w, ty, user, salt, sess, until);
    var session := CheckSession(env, gate.w, ty, rq, user, salt);
    CheckSessionFrame(env, gate.w, ty, rq, user, salt, -1, FailedKey(ty, ip));
    CheckRecordFrame(env, session.w, ty, rq, user, tag, salt, -1, FailedKey(ty, ip));
    SessionAccepted(env, gate.w, ty, rq, user, salt, sess, until);
    w1 := session.w;
    forall u, t ensures At(w1.store, SALT_LOGIN_DB, UserKey(t, u)) == At(w.store, SALT_LOGIN_DB, UserKey(t, u)) {
      GateFrame(env.tape, w, ty, ip, SALT_LOGIN_DB, UserKey(t, u));
      CheckSessionFrame(env, gate.w, ty, rq, user, salt, SALT_LOGIN_DB, UserKey(t, u));
    }
  }

  /** The name can be signed up: it has no live record, or its record is one that the guard
      does not see and that outlives the submission. */
  ghost predicate NameOpen(form: Form, w: World, user: string, end: int) {
    RecordGone(w, user) || (!form.guardOnRecord && AliveAt(RecordOf(w, user).value, end))
  }

  /** Submitting the signup. */
  lemma SignupSubmitted(env: Env, w: World, rq: Request, ip: string, n: int,
                        user: string, tag: string, salt: string, sess: string, until: int)
    requires Arrived(rq, Signup, ip) && ParseSession(Signup, rq.json) == Submit(user, tag, salt)
    requires CookieOf(Signup, rq) == Found(sess) && IpText(ip)
    requires SmoothFor(env.tape, w.pos, 12) && 0 <= n < MaxAllowed(Signup) && Room(w, Signup, ip, n) && FlagGone(w, ip)
    requires HexToken(sess, SALT_LEN) && SessionKept(w, Signup, user, salt, sess, until)
    requires Serve(env, w, rq).w.now < until
    requires NameOpen(env.form, w, user, Serve(env, w, rq).w.now)
    requires RecordShaped(RecordOf(w, user)) && At(w.store, SALT_LOGIN_DB, UserKey(Signup, user)).None?
    ensures var h := Serve(env, w, rq);
            FlagPlain(env.form, rq) ==>
              h.rt == 0 && h.sent == [Welcome] && RecordKept(h.w, user, tag, salt, w.now + 2_592_000_000)
    ensures var h := Serve(env, w, rq);
            FlagCut(env.form, rq) ==> h.rt == 211101 && RecordOf(h.w, user) == RecordOf(w, user)
  {
    hide CheckRecord, Serve, Room, SessionKept, FlagGone, ParseSession, Classify, HeadEnd, CookieOf, At, Holds, Live,
      FlagPlain, FlagCut, IpText;
    var w1 := Submitted(env, w, Signup, rq, ip, n, user, tag, salt, sess, until);
    assert RecordOf(w1, user) == RecordOf(w, user);
    assert forall i :: w1.pos <= i < w1.pos + 4 ==> Smooth(env.tape(i));
    if RecordGone(w, user) { GoneIsNotLive(w1, user, w1.now + env.tape(w1.pos).wait); }
    if FlagPlain(env.form, rq) {
      if !RecordGone(w, user) { SignupTakes(env, w1, rq, user, tag, salt); }
      SignupVerdict(env, w1, rq, user, tag, salt);
    }
    if FlagCut(env.form, rq) { CutSignup(env, w1, rq, user, tag, salt); }
  }

  lemma GoneIsNotLive(w: World, user: string, now: int)
    requires RecordOf(w, user).Some? ==> !AliveAt(RecordOf(w, user).value, now)
    ensures !Live(w.store, SALT_LOGIN_DB, UserKey(Login, user), now)
  {
  }

  /** Asking for a login session. */
  lemma LoginAsked(env: Env, w: World, rq: Request, user: string, ip: string, n: int, tag: string, salt: string,
                   until: int)
    requires CleanUser(user) && Arrived(rq, Login, ip) && rq.json == Some(AskBody(user))
    requires IpText(ip) && HexToken(rq.sess, SALT_LEN)
    requires SmoothFor(env.tape, w.pos, 12) && 0 <= n < MaxAllowed(Login) && Room(w, Login, ip, n)
    requires RecordKept(w, user, tag, salt, until) && |salt| == SALT_LEN && Serve(env, w, rq).w.now < until
    ensures var h := Serve(env, w, rq);
            && h.rt == 1 && h.sent == [Session(Login, rq.sess, rq.sesv, Some(salt))]
            && SessionKept(h.w, Login, user, rq.sesv, rq.sess, w.now + 300_000)
            && Room(h.w, Login, ip, n + 1)
  {
    hide CheckIp, SetHset, GetString, Room, SessionKept, RecordKept, FlagGone, ParseSession, Classify, HeadEnd, At,
      Trace;
    GateOpens(env.tape, w, Login, ip, n);
    AskIsUnderstood(Login, user);
    var gate := CheckIp(env.tape, w, IpCountDb(Login), Login, ip);
    var w' := AfterGate(env, gate.w, Login, rq).w;
    var cmd := SetEx(SessKey(Login, user, rq.sesv), rq.sess, SESS_TTL);
    var put := SetHset(env.tape, gate.w, IpCountDb(Login), SESS_TTL, cmd);
    SessionIssued(env, gate.w, Login, rq, user);
    GateFrame(env.tape, w, Login, ip, SALT_LOGIN_DB, UserKey(Login, user));
    SetHsetFrame(env.tape, gate.w, IpCountDb(Login), SESS_TTL, cmd, SALT_LOGIN_DB, UserKey(Login, user));
    RecordStays(w, put.w, user, tag, salt, until);
    var got := GetString(env.tape, put.w, SALT_LOGIN_DB, SALT_LEN, HGet(UserKey(Login, user), "salt"));
    ReadTime(env.tape, put.w, HGet(UserKey(Login, user), "salt"), SALT_LEN);
    RecordSaltRead(env.tape, put.w, user, tag, salt, until);
    GetStringFrame(env.tape, put.w, SALT_LOGIN_DB, SALT_LEN, HGet(UserKey(Login, user), "salt"), IpCountDb(Login),
                   SessKey(Login, user, rq.sesv));
    SessionStays(put.w, got.w, Login, user, rq.sesv, rq.sess, gate.w.now + 300_000);
    KeptLonger(w', Login, user, rq.sesv, rq.sess, gate.w.now + 300_000, w.now + 300_000);
    BehindGateFrame(env, gate.w, Login, rq, IpCountDb(Login), FailedKey(Login, ip));
    RoomStays(gate.w, w', Login, ip, n + 1);
  }

  lemma ReadTime(tape: Tape, w: World, cmd: Cmd, len: nat)
    ensures GetString(tape, w, SALT_LOGIN_DB, len, cmd).w.now == w.now + tape(w.pos).wait
  {
  }

  /** Submitting the login. */
  lemma LoginSubmitted(env: Env, w: World, rq: Request, ip: string, n: int,
                       user: string, tried: string, sesv: string, sess: string, until: int,
                       tag: string, salt: string, recordUntil: int)
    requires Arrived(rq, Login, ip) && ParseSession(Login, rq.json) == Submit(user, tried, sesv)
    requires CookieOf(Login, rq) == Found(sess) && IpText(ip)
    requires SmoothFor(env.tape, w.pos, 12) && 0 <= n < MaxAllowed(Login) && Room(w, Login, ip, n)
    requires HexToken(sess, SALT_LEN) && SessionKept(w, Login, user, sesv, sess, until)
    requires Serve(env, w, rq).w.now < until
    requires RecordKept(w, user, tag, salt, recordUntil) && Serve(env, w, rq).w.now < recordUntil
    requires |tag| == PASSWD_LEN && |salt| == SALT_LEN
    ensures Serve(env, w, rq).rt
            == (if LoginCheck(env.hash, rq.argonOk, user, sesv, tag, tried) == 0 then 0 else 211121)
  {
    hide Serve, CheckRecord, Room, SessionKept, ParseSession, Classify, HeadEnd, CookieOf, At, LoginCheck, Trace;
    var w1 := Submitted(env, w, Login, rq, ip, n, user, tried, sesv, sess, until);
    assert RecordOf(w1, user) == RecordOf(w, user);
    assert forall i :: w1.pos <= i < w1.pos + 3 ==> Smooth(env.tape(i));
    LoginVerdict(env, w1, rq, user, tried, sesv, tag, salt, recordUntil);
  }

  /** Behind a valid session a login is decided by the hash comparison alone. */
  lemma LoginVerdict(env: Env, w: World, rq: Request, user: string, tried: string, sesv: string,
                     tag: string, salt: string, until: int)
    requires SmoothFor(env.tape, w.pos, 3) && RecordKept(w, user, tag, salt, until) && |tag| == PASSWD_LEN
    requires |salt| == SALT_LEN
    requires CheckRecord(env, w, Login, rq, user, tried, sesv).w.now < until
    ensures CheckRecord(env, w, Login, rq, user, tried, sesv).rt
         == (if LoginCheck(env.hash, rq.argonOk, user, sesv, tag, tried) == 0 then 0 else 211121)
  {
    hide GetString, LoginCheck, SignupTail, Trace, Holds;
    assert Smooth(env.tape(w.pos)) && Smooth(env.tape(w.pos + 1)) && Smooth(env.tape(w.pos + 2));
    var k := UserKey(Login, user);
    var found := GetInt(env.tape, w, SALT_LOGIN_DB, Exists(k));
    var hash := GetString(env.tape, found.w, SALT_LOGIN_DB, PASSWD_LEN, HGet(k, "hash"));
    ReadTime(env.tape, found.w, HGet(k, "hash"), PASSWD_LEN);
    ReadTime(env.tape, hash.w, HGet(k, "salt"), SALT_LEN);
    LoginTailFrame(env, found.w, rq, user, tried, sesv, -1, k);
    RecordIsFound(w, user, tag, salt, until, found.w.now);
    assert found.rt == 0 && found.n == 1 && found.w.store == w.store && found.w.pos == w.pos + 1;
    assert RecordKept(found.w, user, tag, salt, until);
    RecordHashRead(env.tape, found.w, user, tag, salt, until);
    assert RecordKept(hash.w, user, tag, salt, until);
    RecordSaltRead(env.tape, hash.w, user, tag, salt, until);
  }

  lemma RecordIsFound(w: World, user: string, tag: string, salt: string, until: int, now: int)
    requires RecordKept(w, user, tag, salt, until) && now < until
    ensures Live(w.store, SALT_LOGIN_DB, UserKey(Login, user), now)
  {
  }

  // ----- Strangers in between -----

  /** A request about another name. */
  ghost predicate OtherName(rq: Request, user: string) {
    forall ty :: match ParseSession(ty, rq.json)
                 case Rejected(_) => true
                 case NewSession(u) => u != user
                 case Submit(u, _, _) => u != user
  }

  /** A request of another address and for another name, whose flag does not name the
      address either. */
  ghost predicate Stranger(env: Env, rq: Request, ip: string, user: string) {
    rq.ip != ip && FlagIp(env.form, rq) != ip && OtherName(rq, user)
  }

  /** The keys of one address and one name. */
  predicate Owned(k: Key, ip: string, user: string) {
    match k
    case FailedKey(_, i) => i == ip
    case OkKey(_, i) => i == ip
    case SessKey(_, u, _) => u == user
    case UserKey(_, u) => u == user
  }

  lemma StrangerSpares(env: Env, rq: Request, ip: string, user: string, db: int, k: Key)
    requires Stranger(env, rq, ip, user) && Owned(k, ip, user)
    ensures Spares(env.form, rq, db, k)
  {
    hide ParseSession;
  }

  lemma StrangersLeave(env: Env, w: World, rqs: seq<Request>, ip: string, user: string, db: int, k: Key)
    requires (forall i :: 0 <= i < |rqs| ==> Stranger(env, rqs[i], ip, user)) && Owned(k, ip, user)
    ensures Untouched(w, Run(env, w, rqs), db, k)
  {
    hide Run, Stranger, Untouched, Spares;
    forall i | 0 <= i < |rqs| ensures Spares(env.form, rqs[i], db, k) {
      StrangerSpares(env, rqs[i], ip, user, db, k);
    }
    RunFrame(env, w, rqs, db, k);
  }

  /** Requests about other names leave the record alone, whatever address they come from. */
  lemma OthersLeaveRecord(env: Env, w: World, rqs: seq<Request>, user: string)
    requires forall i :: 0 <= i < |rqs| ==> OtherName(rqs[i], user)
    ensures Untouched(w, Run(env, w, rqs), SALT_LOGIN_DB, UserKey(Login, user))
  {
    hide Run, OtherName, Untouched, Spares;
    forall i | 0 <= i < |rqs| ensures Spares(env.form, rqs[i], SALT_LOGIN_DB, UserKey(Login, user)) {
      OtherNameSpares(env.form, rqs[i], user);
    }
    RunFrame(env, w, rqs, SALT_LOGIN_DB, UserKey(Login, user));
  }

  lemma OtherNameSpares(form: Form, rq: Request, user: string)
    requires OtherName(rq, user)
    ensures Spares(form, rq, SALT_LOGIN_DB, UserKey(Login, user))
  {
    hide ParseSession, Classify;
  }

  // ----- The whole story -----

  datatype Post = Post(dir: string, headers: seq<Header>, body: string)

  /** The request consists of these bytes, all of which one read yields, sent from this
      address. */
  ghost predicate Posts(rq: Request, ty: PostType, ip: string, post: Post) {
    && DirOk(post.dir) && (forall h :: h in post.headers ==> HeaderOk(h))
    && rq.buffer == PostText(post.dir, ty, post.headers, post.body) && |rq.buffer| <= REQUEST_MAX && rq.ip == ip
  }

  /** The browser answers a session response: it submits what it computes from the JSON
      and sends the cookie back. */
  ghost predicate Answers(env: Env, rq: Request, ty: PostType, user: string, password: string, post: Post,
                          sent: seq<Response>)
  {
    forall r: Response :: sent == [r] && r.Session? ==>
      && rq.json == SubmitBody(env.hash, ty, user, password, SessionJson(r))
      && HeaderLookup(post.headers, CookieName(ty)) == Some(r.sess)
  }

  lemma PostArrives(rq: Request, ty: PostType, ip: string, post: Post)
    requires Posts(rq, ty, ip, post)
    ensures Arrived(rq, ty, ip)
    ensures forall sess: string :: HexToken(sess, SALT_LEN) && HeaderLookup(post.headers, CookieName(ty)) == Some(sess)
              ==> CookieOf(ty, rq) == Found(sess)
  {
    hide Classify, HeadEnd, CookieLookup, DirOk, HeaderOk;
    PostIsUnderstood(post.dir, ty, post.headers, post.body);
  }

  /** The tokens the random generator made for a session. */
  predicate TokensOk(rq: Request) {
    HexToken(rq.sess, SALT_LEN) && HexOk(rq.sesv, SALT_LEN)
  }

  /** Where a signup starts: room in the counter, no flag, and nothing but a record, if
      anything, under the name's record keys. */
  ghost predicate Setting(w: World, user: string, ip: string) {
    && Room(w, Signup, ip, 3) && FlagGone(w, ip)
    && RecordShaped(RecordOf(w, user)) && At(w.store, SALT_LOGIN_DB, UserKey(Signup, user)).None?
  }

  /** A request for a session, what is served after it, and the submission. */
  datatype Visit = Visit(ask: Request, askPost: Post, between: seq<Request>, submit: Request, submitPost: Post)

  function BeforeSubmit(env: Env, w: World, v: Visit): World {
    Run(env, Serve(env, w, v.ask).w, v.between)
  }

  function Submission(env: Env, w: World, v: Visit): Handled {
    Serve(env, BeforeSubmit(env, w, v), v.submit)
  }

  /** An honest browser's visit: it asks and submits from one plain address, for one name and
      password, within 300 s, and the store answers both requests; strangers come between. */
  ghost predicate Honest(env: Env, w: World, ty: PostType, user: string, password: string, ip: string, v: Visit) {
    && TagsOk(env.hash) && CleanUser(user) && TokensOk(v.ask) && IpText(ip)
    && Posts(v.ask, ty, ip, v.askPost) && v.ask.json == Some(AskBody(user)) && SmoothFor(env.tape, w.pos, 12)
    && (forall i :: 0 <= i < |v.between| ==> Stranger(env, v.between[i], ip, user))
    && Posts(v.submit, ty, ip, v.submitPost) && SmoothFor(env.tape, BeforeSubmit(env, w, v).pos, 12)
    && Answers(env, v.submit, ty, user, password, v.submitPost, Serve(env, w, v.ask).sent)
    && Submission(env, w, v).w.now < w.now + 300_000
  }

  /** How an honest signup visit has gone when its submission arrives. */
  ghost predicate AtSubmission(env: Env, w: World, user: string, password: string, ip: string, v: Visit) {
    var w2, tag, salt := BeforeSubmit(env, w, v), SignupTag(env.hash, v.ask.sesv, user, password), v.ask.sesv;
    && Serve(env, w, v.ask).rt == 1
    && Arrived(v.submit, Signup, ip) && ParseSession(Signup, v.submit.json) == Submit(user, tag, salt)
    && CookieOf(Signup, v.submit) == Found(v.ask.sess) && HexToken(v.ask.sess, SALT_LEN)
    && SessionKept(w2, Signup, user, salt, v.ask.sess, w.now + 300_000)
    && Room(w2, Signup, ip, 4) && FlagGone(w2, ip) && w.now <= w2.now
    && RecordOf(w2, user) == RecordOf(w, user) && At(w2.store, SALT_LOGIN_DB, UserKey(Signup, user)).None?
  }

  lemma SubmissionArrives(env: Env, w: World, user: string, password: string, ip: string, v: Visit)
    requires Honest(env, w, Signup, user, password, ip, v) && Setting(w, user, ip)
    ensures AtSubmission(env, w, user, password, ip, v)
  {
    hide Serve, Run, ParseSession, Stranger, SessionKept, Room, FlagGone, HexOk, CookieOf, Arrived, Answers, Posts,
      RecordShaped, At, SignupTag;
    PostArrives(v.ask, Signup, ip, v.askPost);
    SignupAsked(env, w, v.ask, user, ip, 3);
    var w1 := Serve(env, w, v.ask).w;
    SessionWaits(env, w1, v.between, ip, user, Signup, 4, v.ask.sesv, v.ask.sess, w.now + 300_000);
    CarryOver(env, w, v.ask, v.between, ip, user);
    SignupAnswered(env, v.submit, ip, user, password, v.submitPost, v.ask.sess, v.ask.sesv);
  }

  /** The signup half: a session is asked for, strangers come in between, the browser
      submits. With a plain flag text the signup succeeds, and the record then holds its tag
      and its salt; with a flag text that is cut it fails, and no record changes. */
  lemma SignupHalf(env: Env, w: World, user: string, password: string, ip: string, v: Visit)
    requires Honest(env, w, Signup, user, password, ip, v) && Setting(w, user, ip)
    requires NameOpen(env.form, w, user, Submission(env, w, v).w.now)
    ensures var w2, h := BeforeSubmit(env, w, v), Submission(env, w, v);
            && Serve(env, w, v.ask).rt == 1
            && (FlagPlain(env.form, v.submit) ==>
                  && h.rt == 0
                  && RecordKept(h.w, user, SignupTag(env.hash, v.ask.sesv, user, password), v.ask.sesv,
                                w2.now + 2_592_000_000))
            && (FlagCut(env.form, v.submit) ==> h.rt == 211101 && RecordOf(h.w, user) == RecordOf(w, user))
  {
    hide FlagPlain, FlagCut, IpText;
    hide Serve, Run, ParseSession, Stranger, RecordKept, SessionKept, Room, FlagGone, HexOk, CookieOf, Arrived,
      Answers, Posts, At, SignupTag;
    SubmissionArrives(env, w, user, password, ip, v);
    var w2, tag := BeforeSubmit(env, w, v), SignupTag(env.hash, v.ask.sesv, user, password);
    SignupSubmitted(env, w2, v.submit, ip, 4, user, tag, v.ask.sesv, v.ask.sess, w.now + 300_000);
  }

  /** An honest signup for a name whose record outlives it. With the guard on the record's key
      it is refused and the record stays. As written it succeeds with a plain flag text, and
      the record is the newcomer's; with a flag text that is cut it fails. */
  lemma TakenName(env: Env, w: World, user: string, password: string, ip: string, v: Visit, old_: Entry)
    requires Honest(env, w, Signup, user, password, ip, v) && Setting(w, user, ip)
    requires RecordOf(w, user) == Some(old_) && AliveAt(old_, Submission(env, w, v).w.now)
    ensures var w2, h := BeforeSubmit(env, w, v), Submission(env, w, v);
            && Serve(env, w, v.ask).rt == 1
            && (env.form.guardOnRecord ==> h.rt == 211100 && RecordOf(h.w, user) == Some(old_))
            && (!env.form.guardOnRecord && FlagPlain(env.form, v.submit) ==>
                  && h.rt == 0
                  && RecordKept(h.w, user, SignupTag(env.hash, v.ask.sesv, user, password), v.ask.sesv,
                                w2.now + 2_592_000_000))
            && (!env.form.guardOnRecord && FlagCut(env.form, v.submit) ==>
                  h.rt == 211101 && RecordOf(h.w, user) == Some(old_))
  {
    hide Serve, Run, ParseSession, Stranger, RecordKept, SessionKept, Room, FlagGone, HexOk, CookieOf, Arrived,
      Answers, Posts, At, SignupTag, CheckRecord;
    if env.form.guardOnRecord {
      SubmissionArrives(env, w, user, password, ip, v);
      var w2, tag := BeforeSubmit(env, w, v), SignupTag(env.hash, v.ask.sesv, user, password);
      var w3 := Submitted(env, w2, Signup, v.submit, ip, 4, user, tag, v.ask.sesv, v.ask.sess,
                          w.now + 300_000);
      assert RecordOf(w3, user) == RecordOf(w2, user);
      assert Smooth(env.tape(w3.pos));
      SignupRefused(env, w3, v.submit, user, tag, v.ask.sesv, old_);
    } else {
      SignupHalf(env, w, user, password, ip, v);
    }
  }

  /** Strangers leave the open session and the counter alone. */
  lemma SessionWaits(env: Env, w: World, between: seq<Request>, ip: string, user: string, ty: PostType, n: int,
                     salt: string, sess: string, until: int)
    requires forall i :: 0 <= i < |between| ==> Stranger(env, between[i], ip, user)
    requires SessionKept(w, ty, user, salt, sess, until) && Room(w, ty, ip, n)
    ensures SessionKept(Run(env, w, between), ty, user, salt, sess, until) && Room(Run(env, w, between), ty, ip, n)
  {
    hide Run, Stranger, SessionKept, Room, Untouched;
    var w' := Run(env, w, between);
    StrangersLeave(env, w, between, ip, user, IpCountDb(ty), SessKey(ty, user, salt));
    SessionStays(w, w', ty, user, salt, sess, until);
    StrangersLeave(env, w, between, ip, user, IpCountDb(ty), FailedKey(ty, ip));
    RoomStays(w, w', ty, ip, n);
  }

  /** The browser's answer arrives as the submission it means, with its cookie. */
  lemma SignupAnswered(env: Env, submit: Request, ip: string, user: string, password: string, post: Post, sess: string,
                       sesv: string)
    requires TagsOk(env.hash) && CleanUser(user) && HexToken(sess, SALT_LEN) && HexOk(sesv, SALT_LEN)
    requires Posts(submit, Signup, ip, post)
    requires Answers(env, submit, Signup, user, password, post, [Session(Signup, sess, sesv, None)])
    ensures Arrived(submit, Signup, ip) && CookieOf(Signup, submit) == Found(sess)
    ensures ParseSession(Signup, submit.json) == Submit(user, SignupTag(env.hash, sesv, user, password), sesv)
  {
    hide Posts, Arrived, CookieOf, ParseSession, SubmitBody, SessionJson, SignupTag, HexOk;
    PostArrives(submit, Signup, ip, post);
    SignupBodyIs(env.hash, user, password, sess, sesv);
    TagIsOk(env.hash, sesv, user, password);
    SubmissionIsUnderstood(Signup, user, sesv, SignupTag(env.hash, sesv, user, password));
  }

  lemma LoginAnswered(env: Env, submit: Request, ip: string, user: string, password: string, post: Post,
                      sess: string, sesv: string, salt: string)
    requires TagsOk(env.hash) && CleanUser(user) && HexToken(sess, SALT_LEN) && HexOk(sesv, SALT_LEN)
    requires HexOk(salt, SALT_LEN)
    requires Posts(submit, Login, ip, post)
    requires Answers(env, submit, Login, user, password, post, [Session(Login, sess, sesv, Some(salt))])
    ensures Arrived(submit, Login, ip) && CookieOf(Login, submit) == Found(sess)
    ensures ParseSession(Login, submit.json) == Submit(user, LoginTag(env.hash, salt, sesv, user, password), sesv)
  {
    hide Posts, Arrived, CookieOf, ParseSession, SubmitBody, SessionJson, LoginTag, HexOk;
    PostArrives(submit, Login, ip, post);
    LoginBodyIs(env.hash, user, password, sess, sesv, salt);
    LoginTagIsOk(env.hash, salt, sesv, user, password);
    SubmissionIsUnderstood(Login, user, sesv, LoginTag(env.hash, salt, sesv, user, password));
  }

  lemma LoginTagIsOk(hash: Hasher, salt: string, sesv: string, user: string, p: string)
    requires TagsOk(hash)
    ensures HexOk(LoginTag(hash, salt, sesv, user, p), PASSWD_LEN)
  {
  }

  /** What the start promised about flag, record and login counter still holds when the
      signup is submitted. */
  lemma CarryOver(env: Env, w0: World, ask: Request, between: seq<Request>, ip: string, user: string)
    requires Arrived(ask, Signup, ip) && CleanUser(user) && ask.json == Some(AskBody(user)) && Setting(w0, user, ip)
    requires forall i :: 0 <= i < |between| ==> Stranger(env, between[i], ip, user)
    ensures var w2 := Run(env, Serve(env, w0, ask).w, between);
            && w0.now <= w2.now && FlagGone(w2, ip)
            && RecordOf(w2, user) == RecordOf(w0, user)
            && At(w2.store, SALT_LOGIN_DB, UserKey(Signup, user)).None?
  {
    hide Serve, Run, ParseSession, Stranger, Classify, HeadEnd, Trace;
    var w1 := Serve(env, w0, ask).w;
    var w2 := Run(env, w1, between);
    AskIsUnderstood(Signup, user);
    ServeTime(env, w0, ask);
    RunTime(env, w1, between);
    ServeFrame(env, w0, ask, IpCountDb(Signup), OkKey(Signup, ip));
    StrangersLeave(env, w1, between, ip, user, IpCountDb(Signup), OkKey(Signup, ip));
    ServeFrame(env, w0, ask, SALT_LOGIN_DB, UserKey(Login, user));
    StrangersLeave(env, w1, between, ip, user, SALT_LOGIN_DB, UserKey(Login, user));
    ServeFrame(env, w0, ask, SALT_LOGIN_DB, UserKey(Signup, user));
    StrangersLeave(env, w1, between, ip, user, SALT_LOGIN_DB, UserKey(Signup, user));
  }

  /** The login half: against a kept record the browser's login is decided by the
      comparison of the tags. */
  lemma LoginHalf(env: Env, w: World, user: string, password: string, ip: string, tag: string, salt: string, until: int,
                  v: Visit)
    requires Honest(env, w, Login, user, password, ip, v) && v.submit.argonOk
    requires HexOk(tag, PASSWD_LEN) && HexOk(salt, SALT_LEN)
    requires Room(w, Login, ip, 8) && RecordKept(w, user, tag, salt, until) && Submission(env, w, v).w.now < until
    ensures var tried := LoginTag(env.hash, salt, v.ask.sesv, user, password);
            && Serve(env, w, v.ask).rt == 1
            && Submission(env, w, v).rt
               == (if LoginCheck(env.hash, true, user, v.ask.sesv, tag, tried) == 0 then 0 else 211121)
  {
    hide Serve, Run, ParseSession, Untouched, Stranger, RecordKept, SessionKept, Room, HexOk, CookieOf, Arrived,
      Answers, Posts, At, LoginTag, LoginCheck;
    PostArrives(v.ask, Login, ip, v.askPost);
    var w1, w2 := Serve(env, w, v.ask).w, BeforeSubmit(env, w, v);
    RunTime(env, w1, v.between);
    ServeTime(env, w2, v.submit);
    assert |salt| == SALT_LEN && |tag| == PASSWD_LEN by { HexLengths(salt, tag); }
    LoginAsked(env, w, v.ask, user, ip, 8, tag, salt, until);
    AskLeavesRecord(env, w, v.ask, user, ip, tag, salt, until);
    var tried, sessUntil := LoginTag(env.hash, salt, v.ask.sesv, user, password), w.now + 300_000;
    SessionWaits(env, w1, v.between, ip, user, Login, 9, v.ask.sesv, v.ask.sess, sessUntil);
    StrangersLeave(env, w1, v.between, ip, user, SALT_LOGIN_DB, UserKey(Login, user));
    RecordStays(w1, w2, user, tag, salt, until);
    LoginAnswered(env, v.submit, ip, user, password, v.submitPost, v.ask.sess, v.ask.sesv, salt);
    LoginSubmitted(env, w2, v.submit, ip, 9, user, tried, v.ask.sesv, v.ask.sess, sessUntil, tag, salt, until);
  }

  lemma HexLengths(salt: string, tag: string)
    requires HexOk(salt, SALT_LEN) && HexOk(tag, PASSWD_LEN)
    ensures |salt| == SALT_LEN && |tag| == PASSWD_LEN
  {
  }

  lemma AskLeavesRecord(env: Env, w: World, ask: Request, user: string, ip: string, tag: string, salt: string,
                        until: int)
    requires CleanUser(user) && Arrived(ask, Login, ip) && ask.json == Some(AskBody(user))
    requires RecordKept(w, user, tag, salt, until)
    ensures RecordKept(Serve(env, w, ask).w, user, tag, salt, until)
  {
    hide Serve, RecordKept, Untouched, ParseSession;
    AskIsUnderstood(Login, user);
    ServeFrame(env, w, ask, SALT_LOGIN_DB, UserKey(Login, user));
    RecordStays(w, Serve(env, w, ask).w, user, tag, salt, until);
  }

  /** A signup visit, a login visit, and what is served between them. */
  datatype Tale = Tale(signup: Visit, between: seq<Request>, login: Visit)

  function BeforeLogin(env: Env, w: World, t: Tale): World {
    Run(env, Submission(env, w, t.signup).w, t.between)
  }

  /** An honest browser signs a name up with p from one address and logs in with q from the
      same or another one, while its record lives. The name can be signed up; requests about
      other names come in between. */
  ghost predicate Story(env: Env, w: World, user: string, p: string, ip: string, q: string, ip2: string, t: Tale) {
    && Honest(env, w, Signup, user, p, ip, t.signup) && Setting(w, user, ip)
    && NameOpen(env.form, w, user, Submission(env, w, t.signup).w.now)
    && FlagPlain(env.form, t.signup.submit)
    && (forall i :: 0 <= i < |t.between| ==> OtherName(t.between[i], user))
    && Honest(env, BeforeLogin(env, w, t), Login, user, q, ip2, t.login) && t.login.submit.argonOk
    && Room(BeforeLogin(env, w, t), Login, ip2, 8)
    && Submission(env, BeforeLogin(env, w, t), t.login).w.now
       < BeforeSubmit(env, w, t.signup).now + 2_592_000_000
  }

  /** End to end. From a state with room in the address's counter and no flag of it, an
      honest browser that signs an open name up with password p, with a plain flag text, and
      later logs in with password q from any address with room, gets 1, 0, 1 and then 0 if q
      is p, whatever requests of other names and addresses, with whatever failures, are
      served in between; and if q is not p it is refused, unless the compared hashes
      collide. SignupHalf says what happens with a flag text that is cut. */
  lemma EndToEnd(env: Env, w: World, user: string, p: string, ip: string, q: string, ip2: string, t: Tale)
    requires Story(env, w, user, p, ip, q, ip2, t)
    ensures var w4, last := BeforeLogin(env, w, t), Submission(env, BeforeLogin(env, w, t), t.login).rt;
            var salt1, salt2 := t.signup.ask.sesv, t.login.ask.sesv;
            var tag, tag' := SignupTag(env.hash, salt1, user, p), SignupTag(env.hash, salt1, user, q);
            && Serve(env, w, t.signup.ask).rt == 1
            && Submission(env, w, t.signup).rt == 0
            && Serve(env, w4, t.login.ask).rt == 1
            && (q == p ==> last == 0)
            && (q != p
                && Apart(env.hash, HashInput(salt1, user, p), salt1, HashInput(salt1, user, q), salt1)
                && Apart(env.hash, HashInput(salt2, user, tag), salt2, HashInput(salt2, user, tag'), salt2)
                ==> last == 211121)
  {
    hide Serve, Run, Posts, Answers, Stranger, OtherName, RecordKept, Room, FlagGone, RecordGone, At, Untouched,
      SignupTag, LoginTag, HexOk, LoginCheck, NameOpen, FlagPlain, IpText;
    var w3, w4, salt1 := Submission(env, w, t.signup).w, BeforeLogin(env, w, t), t.signup.ask.sesv;
    var tag, until := SignupTag(env.hash, salt1, user, p), BeforeSubmit(env, w, t.signup).now + 2_592_000_000;
    SignupHalf(env, w, user, p, ip, t.signup);
    OthersLeaveRecord(env, w3, t.between, user);
    RecordStays(w3, w4, user, tag, salt1, until);
    TagIsOk(env.hash, salt1, user, p);
    LoginHalf(env, w4, user, q, ip2, tag, salt1, until, t.login);
    TagsDecide(env.hash, user, salt1, t.login.ask.sesv, p, q);
  }

  lemma TagIsOk(hash: Hasher, salt: string, user: string, p: string)
    requires TagsOk(hash)
    ensures HexOk(SignupTag(hash, salt, user, p), PASSWD_LEN)
  {
  }

  /** Completeness and exactness of the comparison. */
  lemma TagsDecide(hash: Hasher, user: string, salt1: string, salt2: string, p: string, q: string)
    requires TagsOk(hash) && CleanUser(user) && HexOk(salt1, SALT_LEN) && HexOk(salt2, SALT_LEN)
    ensures var tag, tag' := SignupTag(hash, salt1, user, p), SignupTag(hash, salt1, user, q);
            var verdict := LoginCheck(hash, true, user, salt2, tag, LoginTag(hash, salt1, salt2, user, q));
            && (p == q ==> verdict == 0)
            && (p != q
                && Apart(hash, HashInput(salt1, user, p), salt1, HashInput(salt1, user, q), salt1)
                && Apart(hash, HashInput(salt2, user, tag), salt2, HashInput(salt2, user, tag'), salt2)
                ==> verdict != 0)
  {
    var tag, tag' := SignupTag(hash, salt1, user, p), SignupTag(hash, salt1, user, q);
    assert TagSized(hash);
    assert Free(user, {':'});
    if Apart(hash, HashInput(salt1, user, p), salt1, HashInput(salt1, user, q), salt1)
       && Apart(hash, HashInput(salt2, user, tag), salt2, HashInput(salt2, user, tag'), salt2) {
      LoginExact(hash, user, salt1, salt2, p, user, salt1, salt2, q);
    }
  }
}
