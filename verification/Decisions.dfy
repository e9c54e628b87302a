/** What each return value means: for every world, every tape and every request, and said of
    the store and the request alone (src/http_server_main_loop_handler.c,
    src/sess_handle_new_request.c). */
module Decisions {
  import opened Common
  import opened RedisStore
  import opened HttpText
  import opened HttpParser
  import opened Hashing
  import opened Cookies
  import opened PostPath
  import opened Protocol
  import opened History
  import opened SignupRules
  import opened Completeness

  // ----- What a read that succeeds has seen -----

  lemma FieldRead(tape: Tape, w: World, user: string, field: string, len: nat)
    ensures var got := GetString(tape, w, SALT_LOGIN_DB, len, HGet(UserKey(Login, user), field));
            && got.w.store == w.store && w.now <= got.w.now
            && (got.rt == 0 ==>
                  && |got.s| == len && RecordOf(w, user).Some? && AliveAt(RecordOf(w, user).value, got.w.now)
                  && RecordOf(w, user).value.value.Fields?
                  && field in RecordOf(w, user).value.value.fields
                  && RecordOf(w, user).value.value.fields[field] == got.s)
  {
    hide Settle;
  }

  /** The record, alive at the start, has this text of this length in this field. */
  ghost predicate HasField(w: World, user: string, field: string, text: string, len: nat) {
    && RecordOf(w, user).Some? && AliveAt(RecordOf(w, user).value, w.now)
    && RecordOf(w, user).value.value.Fields?
    && field in RecordOf(w, user).value.value.fields && RecordOf(w, user).value.value.fields[field] == text
    && |text| == len
  }

  /** The session stands at the start, and its value is this text. */
  ghost predicate HasSession(w: World, ty: PostType, user: string, salt: string, sess: string) {
    var entry := At(w.store, match ty case Signup => 5 case Login => 1 case Admin => 12, SessKey(ty, user, salt));
    && entry.Some? && AliveAt(entry.value, w.now) && entry.value.value == Text(sess) && |sess| == 32
  }

  lemma SessionSeen(env: Env, w: World, ty: PostType, rq: Request, user: string, salt: string)
    requires StoredAsText(w, ty, user, salt) && CheckSession(env, w, ty, rq, user, salt).rt == 0
    ensures CookieOf(ty, rq).Found? && HasSession(w, ty, user, salt, CookieOf(ty, rq).value)
    ensures CheckSession(env, w, ty, rq, user, salt).w.store == w.store
  {
    hide Settle, CookieOf;
  }

  /** A session key holds no counter: the client library would turn one into text. */
  ghost predicate StoredAsText(w: World, ty: PostType, user: string, salt: string) {
    var entry := At(w.store, IpCountDb(ty), SessKey(ty, user, salt));
    entry.Some? ==> !entry.value.value.Count?
  }

  // ----- A login or admin request that returned 0 -----

  /** The submitted hash is the one that belongs to the stored one in this session. */
  ghost predicate Proves(hash: Hasher, w: World, user: string, passwd: string, salt: string) {
    exists stored ::
      HasField(w, user, "hash", stored, 64) && hash(salt + ":" + user + ":" + stored, salt) == passwd
  }

  lemma RecordEarlier(w: World, w': World, hash: Hasher, user: string, passwd: string, salt: string)
    requires RecordOf(w', user) == RecordOf(w, user) && w.now <= w'.now && Proves(hash, w', user, passwd, salt)
    ensures Proves(hash, w, user, passwd, salt)
  {
    var stored :| HasField(w', user, "hash", stored, 64) && hash(salt + ":" + user + ":" + stored, salt) == passwd;
    assert HasField(w, user, "hash", stored, 64);
  }

  lemma CheckMeans(hash: Hasher, argonOk: bool, user: string, salt: string, stored: string, tried: string)
    requires LoginCheck(hash, argonOk, user, salt, stored, tried) == 0
    requires |salt| == 32 && |stored| == 64 && |tried| == 64
    ensures argonOk && hash(salt + ":" + user + ":" + stored, salt) == tried
  {
  }

  lemma RecordProves(env: Env, w: World, ty: PostType, rq: Request, user: string, passwd: string, salt: string)
    requires ty != Signup && CheckRecord(env, w, ty, rq, user, passwd, salt).rt == 0
    requires |salt| == 32 && |passwd| == 64
    ensures rq.argonOk && Proves(env.hash, w, user, passwd, salt)
  {
    hide GetInt, GetString, LoginCheck, SignupTail, AliveAt, At, Trace, DecText;
    var guard := Exists(GuardKey(env.form, ty, user));
    var found := GetInt(env.tape, w, SALT_LOGIN_DB, guard);
    GetIntFrame(env.tape, w, SALT_LOGIN_DB, guard, SALT_LOGIN_DB, UserKey(Login, user));
    var hash := GetString(env.tape, found.w, SALT_LOGIN_DB, PASSWD_LEN, HGet(UserKey(Login, user), "hash"));
    FieldRead(env.tape, found.w, user, "hash", PASSWD_LEN);
    CheckMeans(env.hash, rq.argonOk, user, salt, hash.s, passwd);
    AliveEarlier(RecordOf(w, user), w.now, hash.w.now);
    assert HasField(w, user, "hash", hash.s, 64);
  }

  lemma AliveEarlier(entry: Option<Entry>, t: int, t': int)
    requires t <= t'
    ensures entry.Some? && AliveAt(entry.value, t') ==> AliveAt(entry.value, t)
  {
  }

  /** A login or admin request that returned 0, whatever the tape and the world: it submitted
      a name, a hash and a session salt; the session stood, with the value of its cookie; and
      there was a record of the name, alive when the request began, to whose hash the
      submitted one is the answer in this session. */
  lemma LoginSound(env: Env, w: World, rq: Request, ty: PostType)
    requires Classify(rq.buffer) == Accepted(ty) && ty != Signup && Serve(env, w, rq).rt == 0
    ensures ParseSession(ty, rq.json).Submit?
    ensures var Submit(user, passwd, salt) := ParseSession(ty, rq.json);
            && rq.argonOk && Proves(env.hash, w, user, passwd, salt)
            && CookieOf(ty, rq).Found?
            && (StoredAsText(w, ty, user, salt) ==> HasSession(w, ty, user, salt, CookieOf(ty, rq).value))
  {
    hide CheckIp, CheckSession, CheckRecord, IssueSession, ParseSession, Trace, At, HasSession, CookieOf;
    var gate := CheckIp(env.tape, w, IpCountDb(ty), ty, rq.ip);
    SessionNeverReturnsZero(env, gate.w, ty, rq);
    var Submit(user, passwd, salt) := ParseSession(ty, rq.json);
    SubmitSizes(ty, rq);
    var session := CheckSession(env, gate.w, ty, rq, user, salt);
    GateFrame(env.tape, w, ty, rq.ip, SALT_LOGIN_DB, UserKey(Login, user));
    CheckSessionFrame(env, gate.w, ty, rq, user, salt, SALT_LOGIN_DB, UserKey(Login, user));
    RecordProves(env, session.w, ty, rq, user, passwd, salt);
    RecordEarlier(w, session.w, env.hash, user, passwd, salt);
    SessionHeld(env, w, ty, rq, user, salt);
  }

  lemma SubmitSizes(ty: PostType, rq: Request)
    requires ParseSession(ty, rq.json).Submit?
    ensures var p := ParseSession(ty, rq.json);
            |p.passwd| == 64 && |p.salt| == 32
  {
  }

  lemma SessionHeld(env: Env, w: World, ty: PostType, rq: Request, user: string, salt: string)
    requires CheckIp(env.tape, w, IpCountDb(ty), ty, rq.ip).rt == 0
    requires CheckSession(env, CheckIp(env.tape, w, IpCountDb(ty), ty, rq.ip).w, ty, rq, user, salt).rt == 0
    ensures CookieOf(ty, rq).Found?
    ensures StoredAsText(w, ty, user, salt) ==> HasSession(w, ty, user, salt, CookieOf(ty, rq).value)
  {
    hide CheckIp, CheckSession, Trace, CookieOf;
    var gate := CheckIp(env.tape, w, IpCountDb(ty), ty, rq.ip);
    GateFrame(env.tape, w, ty, rq.ip, IpCountDb(ty), SessKey(ty, user, salt));
    CookieSeen(env, gate.w, ty, rq, user, salt);
    if StoredAsText(w, ty, user, salt) { SessionSeen(env, gate.w, ty, rq, user, salt); }
  }

  lemma CookieSeen(env: Env, w: World, ty: PostType, rq: Request, user: string, salt: string)
    requires CheckSession(env, w, ty, rq, user, salt).rt == 0
    ensures CookieOf(ty, rq).Found?
  {
    hide GetString, CookieOf;
  }

  // ----- A request that got a session -----

  /** The session pair stands in the store for 300 s from some time of the request on. */
  ghost predicate PairStored(w: World, ty: PostType, user: string, rq: Request, since: int) {
    var entry := At(w.store, match ty case Signup => 5 case Login => 1 case Admin => 12, SessKey(ty, user, rq.sesv));
    && entry.Some? && entry.value.value == Text(rq.sess) && entry.value.expiry.Some?
    && since + 300_000 <= entry.value.expiry.value <= w.now + 300_000
  }

  lemma PairPut(env: Env, w: World, ty: PostType, rq: Request, user: string)
    ensures var put :=
            SetHset(env.tape, w, IpCountDb(ty), SESS_TTL, SetEx(SessKey(ty, user, rq.sesv), rq.sess, SESS_TTL));
            && w.now <= put.w.now && RecordOf(put.w, user) == RecordOf(w, user)
            && (put.rt == 0 ==> PairStored(put.w, ty, user, rq, w.now))
  {
    hide Settle;
  }

  /** What a session request sends, by its type. */
  ghost predicate Answered(w: World, ty: PostType, user: string, rq: Request, sent: seq<Response>) {
    if ty == Login then
      exists salt :: HasField(w, user, "salt", salt, 32) && sent == [Session(Login, rq.sess, rq.sesv, Some(salt))]
    else sent == [Session(ty, rq.sess, rq.sesv, None)]
  }

  lemma SessionAnswers(env: Env, w: World, ty: PostType, rq: Request, user: string)
    requires IssueSession(env, w, ty, rq, user).rt == 1
    ensures var h := IssueSession(env, w, ty, rq, user);
            Answered(w, ty, user, rq, h.sent) && PairStored(h.w, ty, user, rq, w.now)
  {
    hide SetHset, GetString, AliveAt, At;
    PairPut(env, w, ty, rq, user);
    var put := SetHset(env.tape, w, IpCountDb(ty), SESS_TTL, SetEx(SessKey(ty, user, rq.sesv), rq.sess, SESS_TTL));
    if ty == Login {
      var salt := GetString(env.tape, put.w, SALT_LOGIN_DB, SALT_LEN, HGet(UserKey(Login, user), "salt"));
      FieldRead(env.tape, put.w, user, "salt", SALT_LEN);
      AliveEarlier(RecordOf(w, user), w.now, salt.w.now);
      assert HasField(w, user, "salt", salt.s, 32);
    }
  }

  lemma OnlyAsksReturnOne(env: Env, w: World, ty: PostType, rq: Request)
    requires AfterGate(env, w, ty, rq).rt == 1
    ensures ParseSession(ty, rq.json).NewSession?
  {
    hide GetString, GetInt, SetHset, ParseSession, CookieOf, DecText, LoginCheck;
  }

  lemma AnsweredEarlier(w: World, w': World, ty: PostType, user: string, rq: Request, sent: seq<Response>)
    requires RecordOf(w', user) == RecordOf(w, user) && w.now <= w'.now && Answered(w', ty, user, rq, sent)
    ensures Answered(w, ty, user, rq, sent)
  {
    if ty == Login {
      var salt :| HasField(w', user, "salt", salt, 32) && sent == [Session(Login, rq.sess, rq.sesv, Some(salt))];
      assert HasField(w, user, "salt", salt, 32);
    }
  }

  /** A request that returned 1, whatever the tape and the world: it asked for a session of a
      name; the pair it made is in the store for 300 s; it sent exactly that pair, at login
      with the 32-character salt of the name's record, which was alive when the request began,
      and otherwise without a salt. */
  lemma SessionSound(env: Env, w: World, rq: Request, ty: PostType)
    requires Classify(rq.buffer) == Accepted(ty) && Serve(env, w, rq).rt == 1
    ensures ParseSession(ty, rq.json).NewSession?
    ensures var user, h := ParseSession(ty, rq.json).user, Serve(env, w, rq);
            Answered(w, ty, user, rq, h.sent) && PairStored(h.w, ty, user, rq, w.now)
  {
    hide CheckIp, HandleSubmit, IssueSession, ParseSession, Trace, At, HasField;
    var gate := CheckIp(env.tape, w, IpCountDb(ty), ty, rq.ip);
    OnlyAsksReturnOne(env, gate.w, ty, rq);
    var user := ParseSession(ty, rq.json).user;
    GateFrame(env.tape, w, ty, rq.ip, SALT_LOGIN_DB, UserKey(Login, user));
    SessionAnswers(env, gate.w, ty, rq, user);
    AnsweredEarlier(w, gate.w, ty, user, rq, Serve(env, w, rq).sent);
  }

  /** A login session for a name without a record: the pair is stored, but the request ends
      with 211051 and nothing is sent. */
  lemma NoSessionWithoutRecord(env: Env, w: World, rq: Request, user: string, ip: string, n: int)
    requires Arrived(rq, Login, ip) && ParseSession(Login, rq.json) == NewSession(user)
    requires IpText(ip) && HexToken(rq.sess, SALT_LEN)
    requires SmoothFor(env.tape, w.pos, 12) && 0 <= n < MaxAllowed(Login) && Room(w, Login, ip, n)
    requires RecordGone(w, user)
    ensures Serve(env, w, rq).rt == 211051 && Serve(env, w, rq).sent == []
  {
    hide CheckIp, Room, ParseSession, Classify, HeadEnd, At, Trace, SetHset, GetString;
    GateOpens(env.tape, w, Login, ip, n);
    var gate := CheckIp(env.tape, w, IpCountDb(Login), Login, ip);
    GateFrame(env.tape, w, Login, ip, SALT_LOGIN_DB, UserKey(Login, user));
    PairPut(env, gate.w, Login, rq, user);
    var put := SetHset(env.tape, gate.w, IpCountDb(Login), SESS_TTL,
                       SetEx(SessKey(Login, user, rq.sesv), rq.sess, SESS_TTL));
    FieldRead(env.tape, put.w, user, "salt", SALT_LEN);
  }

  /** A login submission for a name without a record is refused with 211120, whatever session
      it holds and whatever hash it submits. */
  lemma NoLoginWithoutRecord(env: Env, w: World, rq: Request, ip: string, n: int,
                             user: string, tag: string, salt: string, sess: string, until: int)
    requires Arrived(rq, Login, ip) && ParseSession(Login, rq.json) == Submit(user, tag, salt)
    requires CookieOf(Login, rq) == Found(sess) && IpText(ip)
    requires SmoothFor(env.tape, w.pos, 12) && 0 <= n < MaxAllowed(Login) && Room(w, Login, ip, n)
    requires HexToken(sess, SALT_LEN) && SessionKept(w, Login, user, salt, sess, until)
    requires Serve(env, w, rq).w.now < until && RecordGone(w, user)
    ensures Serve(env, w, rq).rt == 211120 && Serve(env, w, rq).sent == [Refusal("29:211120")]
  {
    hide Serve, CheckIp, Room, SessionKept, ParseSession, Classify, HeadEnd, CookieOf, At, Trace, LoginTail, SignupTail;
    var w1 := Submitted(env, w, Login, rq, ip, n, user, tag, salt, sess, until);
    assert Smooth(env.tape(w1.pos));
    assert RecordOf(w1, user) == RecordOf(w, user);
    NoneFound(env.tape, w1, user);
  }

  lemma NoneFound(tape: Tape, w: World, user: string)
    requires Smooth(tape(w.pos)) && RecordGone(w, user)
    ensures var found := GetInt(tape, w, SALT_LOGIN_DB, Exists(UserKey(Login, user)));
            found.rt == 0 && found.n == 0
  {
  }

  // ----- A signup that returned 0 -----

  lemma RecordPut(tape: Tape, w: World, user: string, passwd: string, salt: string)
    requires SetHset(tape, w, SALT_LOGIN_DB, NEW_USER_TTL, HSet(UserKey(Login, user), NewRecord(passwd, salt))).rt == 0
    ensures var put :=
            SetHset(tape, w, SALT_LOGIN_DB, NEW_USER_TTL, HSet(UserKey(Login, user), NewRecord(passwd, salt)));
            && IsRecord(put.w, user, passwd, salt)
            && RecordOf(put.w, user).value.expiry == Some(put.w.now + 2_592_000_000)
  {
    hide Issue, Send, Effect, NewRecord;
    var cmd := HSet(UserKey(Login, user), NewRecord(passwd, salt));
    var w1 := Issue(tape, w, SALT_LOGIN_DB, cmd).0;
    HSetSets(tape, w, user, passwd, salt);
    ExpireSets(tape, w1, user, passwd, salt);
  }

  /** The name's record has these four fields. */
  ghost predicate IsRecord(w: World, user: string, passwd: string, salt: string) {
    RecordOf(w, user).Some? && HoldsRecord(RecordOf(w, user).value.value, passwd, salt)
  }

  predicate HoldsRecord(value: Value, passwd: string, salt: string) {
    && value.Fields?
    && var f := value.fields;
       && "hash" in f && f["hash"] == passwd && "salt" in f && f["salt"] == salt
       && "level" in f && f["level"] == "0" && "status" in f && f["status"] == "active"
  }

  lemma HSetSets(tape: Tape, w: World, user: string, passwd: string, salt: string)
    ensures var (w', reply) := Issue(tape, w, SALT_LOGIN_DB, HSet(UserKey(Login, user), NewRecord(passwd, salt)));
            SetVerdict(reply) == 0 ==> IsRecord(w', user, passwd, salt)
  {
    hide Settle, Effect, TrueReply, NewRecord, HoldsRecord;
    var w' := Issue(tape, w, SALT_LOGIN_DB, HSet(UserKey(Login, user), NewRecord(passwd, salt))).0;
    EffectSets(w.store, user, passwd, salt, w'.now);
  }

  /** HSET on a live hash keeps the fields that it does not name. */
  lemma EffectSets(st: Store, user: string, passwd: string, salt: string, now: int)
    ensures var cmd := HSet(UserKey(Login, user), NewRecord(passwd, salt));
            var reply, entry := TrueReply(st, SALT_LOGIN_DB, cmd, now),
                                At(Effect(st, SALT_LOGIN_DB, cmd, now), SALT_LOGIN_DB, UserKey(Login, user));
            && (reply.IntReply? || reply == ErrorReply)
            && (reply.IntReply? ==> entry.Some? && HoldsRecord(entry.value.value, passwd, salt))
            && (reply.IntReply? && Live(st, SALT_LOGIN_DB, cmd.key, now) ==>
                  var old_ := st[(SALT_LOGIN_DB, cmd.key)].value.fields;
                  forall name :: name in old_ && name !in {"hash", "salt", "level", "status"} ==>
                    name in entry.value.value.fields && entry.value.value.fields[name] == old_[name])
  {
    hide NewRecord, HoldsRecord;
    RecordHolds(passwd, salt);
  }

  lemma RecordHolds(passwd: string, salt: string)
    ensures HoldsRecord(Fields(NewRecord(passwd, salt)), passwd, salt)
    ensures forall f :: HoldsRecord(Fields(f + NewRecord(passwd, salt)), passwd, salt)
    ensures NewRecord(passwd, salt).Keys == {"hash", "salt", "level", "status"}
  {
  }

  lemma ExpireSets(tape: Tape, w: World, user: string, passwd: string, salt: string)
    requires IsRecord(w, user, passwd, salt)
    ensures var (w', reply) := Send(tape, w, SALT_LOGIN_DB, Expire(UserKey(Login, user), NEW_USER_TTL));
            ExpireVerdict(reply) == 0 ==>
              && IsRecord(w', user, passwd, salt)
              && RecordOf(w', user).value.expiry == Some(w'.now + 2_592_000_000)
  {
    hide Settle;
  }

  /** The record that the guard asks for is not alive when the request ends. */
  ghost predicate GuardFree(form: Form, w: World, user: string, end: int) {
    var entry := At(w.store, 0, UserKey(if form.guardOnRecord then Login else Signup, user));
    entry.Some? ==> !AliveAt(entry.value, end)
  }

  lemma GuardWasFree(env: Env, w: World, user: string)
    ensures var found := GetInt(env.tape, w, SALT_LOGIN_DB, Exists(GuardKey(env.form, Signup, user)));
            found.rt == 0 && found.n != 1 ==> GuardFree(env.form, w, user, found.w.now)
  {
    hide Settle;
  }

  lemma SignupMakes(env: Env, w: World, rq: Request, user: string, passwd: string, salt: string)
    requires CheckRecord(env, w, Signup, rq, user, passwd, salt).rt == 0
    ensures var w' := CheckRecord(env, w, Signup, rq, user, passwd, salt).w;
            && IsRecord(w', user, passwd, salt) && RecordOf(w', user).value.expiry == Some(w'.now + 2_592_000_000)
            && GuardFree(env.form, w, user, w'.now)
  {
    hide GetInt, SetHset, LoginTail, IsRecord, GuardFree, NewRecord, DecText;
    var found := GetInt(env.tape, w, SALT_LOGIN_DB, Exists(GuardKey(env.form, Signup, user)));
    GuardWasFree(env, w, user);
    SignupTailTime(env, found.w, rq, user, passwd, salt);
    FreeLater(env.form, w, user, found.w.now, CheckRecord(env, w, Signup, rq, user, passwd, salt).w.now);
    var cmd := SetEx(OkKey(Signup, FlagIp(env.form, rq)), "1", SIGNUP_OK_TTL);
    RecordPut(env.tape, SetHset(env.tape, found.w, IpCountDb(Signup), SIGNUP_OK_TTL, cmd).w, user, passwd, salt);
  }

  lemma FreeLater(form: Form, w: World, user: string, t: int, t': int)
    requires GuardFree(form, w, user, t) && t <= t'
    ensures GuardFree(form, w, user, t')
  {
  }

  lemma FreeEarlier(form: Form, w: World, w': World, user: string, end: int)
    requires GuardFree(form, w', user, end)
    requires forall t :: At(w'.store, 0, UserKey(t, user)) == At(w.store, 0, UserKey(t, user))
    ensures GuardFree(form, w, user, end)
  {
  }

  /** A signup that returned 0, whatever the tape and the world: its session stood, with the
      value of its cookie; the record that the guard asks for was dead; and the name's record
      now holds the submitted hash and salt, level 0 and status active, for 30 days. */
  lemma SignupSound(env: Env, w: World, rq: Request)
    requires Classify(rq.buffer) == Accepted(Signup) && Serve(env, w, rq).rt == 0
    ensures ParseSession(Signup, rq.json).Submit?
    ensures var (Submit(user, passwd, salt), w') := (ParseSession(Signup, rq.json), Serve(env, w, rq).w);
            && IsRecord(w', user, passwd, salt) && RecordOf(w', user).value.expiry == Some(w'.now + 2_592_000_000)
            && GuardFree(env.form, w, user, w'.now)
            && CookieOf(Signup, rq).Found?
            && (StoredAsText(w, Signup, user, salt) ==> HasSession(w, Signup, user, salt, CookieOf(Signup, rq).value))
  {
    hide CheckIp, CheckSession, CheckRecord, IssueSession, ParseSession, Trace, At, HasSession, CookieOf, IsRecord,
      GuardFree;
    var gate := CheckIp(env.tape, w, IpCountDb(Signup), Signup, rq.ip);
    SessionNeverReturnsZero(env, gate.w, Signup, rq);
    var Submit(user, passwd, salt) := ParseSession(Signup, rq.json);
    var session := CheckSession(env, gate.w, Signup, rq, user, salt);
    SignupMakes(env, session.w, rq, user, passwd, salt);
    forall t ensures At(session.w.store, 0, UserKey(t, user)) == At(w.store, 0, UserKey(t, user)) {
      GateFrame(env.tape, w, Signup, rq.ip, SALT_LOGIN_DB, UserKey(t, user));
      CheckSessionFrame(env, gate.w, Signup, rq, user, salt, SALT_LOGIN_DB, UserKey(t, user));
    }
    FreeEarlier(env.form, w, session.w, user, Serve(env, w, rq).w.now);
    SessionHeld(env, w, Signup, rq, user, salt);
  }
}
