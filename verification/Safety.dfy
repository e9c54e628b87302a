/** What holds in every state that any number of workers can reach in any order of
    commands, under any failures (src/http_server_main_loop_handler.c,
    src/sess_handle_new_request.c). */
module Safety {
  import opened Common
  import opened RedisStore
  import opened HttpText
  import opened HttpParser
  import opened Validators
  import opened Hashing
  import opened PostPath
  import opened Protocol
  import opened Interleaving

  // ----- The history -----

  /** e stores v for a session of (ty, user, salt) at most 300 s before `at`. */
  predicate Issues(e: Event, ty: PostType, user: string, salt: string, v: string, at: int) {
    e.Ran? && e.cmd == SetEx(SessKey(ty, user, salt), v, 300) && e.at <= at < e.at + 300_000
  }

  /** Among the first n events there is such a store command. */
  ghost predicate Issued(log: seq<Event>, n: nat, ty: PostType, user: string, salt: string, v: string, at: int) {
    exists j :: 0 <= j < n <= |log| && Issues(log[j], ty, user, salt, v, at)
  }

  /** Among the first n events there is a lookup of that session. */
  ghost predicate Looked(log: seq<Event>, n: nat, ty: PostType, user: string, salt: string, v: string, at: int) {
    exists j :: 0 <= j < n <= |log| && log[j] == SessRead(at, ty, user, salt, v)
  }

  /** Among the first n events there is a lookup of a signup session of (user, salt). */
  ghost predicate SignupLooked(log: seq<Event>, n: nat, user: string, salt: string) {
    exists j :: 0 <= j < n <= |log| && log[j].SessRead? && log[j].ty == Signup && log[j].user == user
        && log[j].salt == salt
  }

  /** The commands that the daemon sends, and no others. */
  predicate Allowed(cmd: Cmd) {
    match cmd
    case Get(k) => k.SessKey?
    case HGet(k, _) => k.UserKey? && k.ty == Login
    case Exists(k) => k.OkKey? || k.UserKey?
    case SetEx(k, text, ttl) => (k.SessKey? && ttl == 300) || (k.OkKey? && k.ty == Signup && text == "1" && ttl == 3600)
    case Incr(k) => k.FailedKey?
    case Expire(k, ttl) => (k.FailedKey? && ttl == 3610) || (k.UserKey? && k.ty == Login && ttl == 2592000)
    case HSet(k, f) => k.UserKey? && k.ty == Login && Recordable(k.user, f)
  }

  /** Records live in database 0; counters, flags and sessions in those of the types. */
  predicate InPlace(db: int, k: Key) {
    if k.UserKey? then db == 0 else db == 5 || db == 1 || db == 12
  }

  /** A record as the daemon writes it. */
  predicate Recordable(user: string, f: map<string, string>) {
    && CleanUser(user)
    && f.Keys == {"hash", "salt", "level", "status"}
    && HexOk(f["hash"], 64) && HexOk(f["salt"], 32)
    && f["level"] == "0" && f["status"] == "active"
  }

  ghost predicate EventOk(log: seq<Event>, n: nat)
    requires n < |log|
  {
    match log[n]
    case Ran(_, db, cmd) =>
      && Allowed(cmd) && InPlace(db, cmd.key)
      && (cmd.HSet? ==> SignupLooked(log, n, cmd.key.user, cmd.fields["salt"]))
    case SessRead(at, ty, user, salt, v) => Issued(log, n, ty, user, salt, v, at)
    case GatePassed(_, _, _, _, _) => true
  }

  ghost predicate LogOk(w: World) {
    forall n :: 0 <= n < |w.log| ==> w.log[n].at <= w.now && EventOk(w.log, n)
  }

  // ----- The store -----

  /** The entry comes from the history, with its lifetime: 300 s for a session, 30 days for a
      record, 3600 s for a flag, 3610 s for a counter. Records and counters are without one
      between their first command and its EXPIRE. */
  ghost predicate EntryOk(log: seq<Event>, db: int, k: Key, entry: Entry) {
    && InPlace(db, k)
    && match k
       case SessKey(_, _, _) =>
         && entry.value.Text? && entry.expiry.Some?
         && Ran(entry.expiry.value - 300_000, db, SetEx(k, entry.value.text, 300)) in log
       case UserKey(ty, user) =>
         && ty == Login && entry.value.Fields?
         && Recordable(user, entry.value.fields) && Written(log, db, k, entry.value.fields)
         && (entry.expiry.Some? ==> Ran(entry.expiry.value - 2_592_000_000, db, Expire(k, 2592000)) in log)
       case OkKey(_, _) =>
         && entry.value == Text("1") && entry.expiry.Some?
         && Ran(entry.expiry.value - 3_600_000, db, SetEx(k, "1", 3600)) in log
       case FailedKey(_, _) =>
         && entry.value.Count?
         && (entry.expiry.Some? ==> Ran(entry.expiry.value - 3_610_000, db, Expire(k, 3610)) in log)
  }

  ghost predicate Written(log: seq<Event>, db: int, k: Key, f: map<string, string>) {
    exists j :: 0 <= j < |log| && log[j].Ran? && log[j].db == db && log[j].cmd == HSet(k, f)
  }

  ghost predicate StoreOk(w: World) {
    forall db, k :: (db, k) in w.store ==> EntryOk(w.log, db, k, w.store[(db, k)])
  }

  // ----- The workers -----

  /** The worker's request passed the session check at its last lookup. */
  ghost predicate Checked(log: seq<Event>, me: Worker) {
    var p := ParseSession(me.ty, me.rq.json);
    && p.Submit?
    && CookieOf(me.ty, me.rq).Found?
    && Looked(log, |log|, me.ty, p.user, p.salt, CookieOf(me.ty, me.rq).value, me.readAt)
  }

  ghost predicate WorkerOk(form: Form, log: seq<Event>, me: Worker) {
    match me.pc
    case AtFlag(db) => IsIpCountDb(db)
    case AtReconnect(db, _) => IsIpCountDb(db)
    case AtIncr(db, _) => IsIpCountDb(db)
    case AtExpire(db, _, _) => IsIpCountDb(db)
    case AtNewSession(user) => ParseSession(me.ty, me.rq.json) == NewSession(user)
    case AtLookup(p) => ParseSession(me.ty, me.rq.json) == p
    case AtGuard(p) => ParseSession(me.ty, me.rq.json) == p && Checked(log, me)
    case AtSetFlag(p) => ParseSession(me.ty, me.rq.json) == p && Checked(log, me) && me.ty == Signup
    case AtHSet(p) => ParseSession(me.ty, me.rq.json) == p && Checked(log, me) && me.ty == Signup
    case AtHExpire(p) => ParseSession(me.ty, me.rq.json) == p && Checked(log, me) && me.ty == Signup
    case AtHash(p) => ParseSession(me.ty, me.rq.json) == p && Checked(log, me) && NotBarred(form, me.ty)
    case AtSalt(p, _) => ParseSession(me.ty, me.rq.json) == p && Checked(log, me) && NotBarred(form, me.ty)
    case Closed(rt, _) =>
      && (rt == 0 ==> Checked(log, me) && (me.ty == Signup || NotBarred(form, me.ty)))
      && (rt == 211100 ==> form.guardOnRecord)
    case _ => true
  }

  /** With the literal guard only a login finds the record it asks for. */
  predicate NotBarred(form: Form, ty: PostType) {
    form.guardOnRecord || ty == Login
  }

  ghost predicate SysInv(form: Form, s: Sys) {
    && LogOk(s.w) && StoreOk(s.w)
    && forall i :: 0 <= i < |s.workers| ==> WorkerOk(form, s.w.log, s.workers[i])
  }

  // ----- Histories grow -----

  lemma EventStaysOk(log: seq<Event>, log': seq<Event>, n: nat)
    requires log <= log' && n < |log| && EventOk(log, n)
    ensures EventOk(log', n)
  {
    match log[n]
    case Ran(_, _, cmd) =>
      if cmd.HSet? {
        var j :| 0 <= j < n && log[j].SessRead? && log[j].ty == Signup && log[j].user == cmd.key.user
                 && log[j].salt == cmd.fields["salt"];
        assert log'[j] == log[j];
      }
    case SessRead(at, ty, user, salt, v) =>
      var j :| 0 <= j < n && Issues(log[j], ty, user, salt, v, at);
      assert log'[j] == log[j];
    case GatePassed(_, _, _, _, _) =>
  }

  lemma LogGrows(w: World, w': World, e: Event)
    requires LogOk(w) && w.now <= w'.now && w'.log == w.log + [e]
    requires e.at <= w'.now && EventOk(w'.log, |w.log|)
    ensures LogOk(w')
  {
    forall n | 0 <= n < |w'.log| ensures w'.log[n].at <= w'.now && EventOk(w'.log, n) {
      if n < |w.log| { EventStaysOk(w.log, w'.log, n); }
    }
  }

  lemma EntryStaysOk(log: seq<Event>, log': seq<Event>, db: int, k: Key, entry: Entry)
    requires log <= log' && EntryOk(log, db, k, entry)
    ensures EntryOk(log', db, k, entry)
  {
    if k.UserKey? {
      var j :| 0 <= j < |log| && log[j].Ran? && log[j].db == db && log[j].cmd == HSet(k, entry.value.fields);
      assert log'[j] == log[j];
    }
    assert forall e :: e in log ==> e in log';
  }

  lemma WorkerStaysOk(form: Form, log: seq<Event>, log': seq<Event>, me: Worker)
    requires log <= log' && WorkerOk(form, log, me)
    ensures WorkerOk(form, log', me)
  {
    hide ParseSession, CookieOf;
    if Checked(log, me) { CheckedStays(log, log', me); }
  }

  lemma CheckedStays(log: seq<Event>, log': seq<Event>, me: Worker)
    requires log <= log' && Checked(log, me)
    ensures Checked(log', me)
  {
    hide ParseSession, CookieOf;
    var p := ParseSession(me.ty, me.rq.json);
    var j :| 0 <= j < |log| && log[j] == SessRead(me.readAt, me.ty, p.user, p.salt, CookieOf(me.ty, me.rq).value);
    assert log'[j] == log[j];
  }

  // ----- One command keeps history and store -----

  lemma HSetMerges(user: string, old_: map<string, string>, f: map<string, string>)
    requires Recordable(user, old_) && Recordable(user, f)
    ensures old_ + f == f
  {
  }

  lemma NewEntryOk(w: World, w': World, db: int, cmd: Cmd)
    requires StoreOk(w) && Allowed(cmd) && InPlace(db, cmd.key)
    requires w'.store == Effect(w.store, db, cmd, w'.now) && w'.log == w.log + [Ran(w'.now, db, cmd)]
    requires (db, cmd.key) in w'.store
    ensures EntryOk(w'.log, db, cmd.key, w'.store[(db, cmd.key)])
  {
    var k := cmd.key;
    if (db, k) in w.store { EntryStaysOk(w.log, w'.log, db, k, w.store[(db, k)]); }
    assert w'.log[|w.log|] == Ran(w'.now, db, cmd);
    if cmd.HSet? && Live(w.store, db, k, w'.now) { HSetMerges(k.user, w.store[(db, k)].value.fields, cmd.fields); }
  }

  /** Any allowed command, run or not, keeps history and store in order. */
  lemma CommandKeeps(w: World, w': World, db: int, cmd: Cmd)
    requires LogOk(w) && StoreOk(w) && Stepped(w, w', db, cmd)
    requires Allowed(cmd) && InPlace(db, cmd.key)
    requires cmd.HSet? ==> SignupLooked(w.log, |w.log|, cmd.key.user, cmd.fields["salt"])
    ensures LogOk(w') && StoreOk(w') && w.log <= w'.log
  {
    hide Allowed, InPlace;
    if w'.log != w.log || w'.store != w.store {
      RanIsOk(w, w', db, cmd);
      LogGrows(w, w', Ran(w'.now, db, cmd));
      forall d, k | (d, k) in w'.store ensures EntryOk(w'.log, d, k, w'.store[(d, k)]) {
        if (d, k) == (db, cmd.key) { NewEntryOk(w, w', db, cmd); }
        else {
          assert (d, k) in w.store && w'.store[(d, k)] == w.store[(d, k)];
          EntryStaysOk(w.log, w'.log, d, k, w.store[(d, k)]);
        }
      }
    }
  }

  lemma RanIsOk(w: World, w': World, db: int, cmd: Cmd)
    requires Allowed(cmd) && InPlace(db, cmd.key)
    requires cmd.HSet? ==> SignupLooked(w.log, |w.log|, cmd.key.user, cmd.fields["salt"])
    requires w'.log == w.log + [Ran(w'.now, db, cmd)]
    ensures EventOk(w'.log, |w.log|)
  {
    if cmd.HSet? {
      var j :| 0 <= j < |w.log| && w.log[j].SessRead? && w.log[j].ty == Signup && w.log[j].user == cmd.key.user
               && w.log[j].salt == cmd.fields["salt"];
      assert w'.log[j] == w.log[j];
    }
  }

  lemma IdleKeeps(w: World, w': World)
    requires LogOk(w) && StoreOk(w) && w'.log == w.log && w'.store == w.store && w.now <= w'.now
    ensures LogOk(w') && StoreOk(w')
  {
  }

  /** A session that answers was issued less than 300 s ago. */
  lemma AnsweredSessionWasIssued(w: World, w': World, db: int, ty: PostType, user: string, salt: string, s: string)
    requires LogOk(w) && StoreOk(w) && Stepped(w, w', db, Get(SessKey(ty, user, salt)))
    requires TrueReply(w.store, db, Get(SessKey(ty, user, salt)), w'.now) == StrReply(s)
    ensures Issued(w.log, |w.log|, ty, user, salt, s, w'.now)
  {
    var k := SessKey(ty, user, salt);
    var entry := w.store[(db, k)];
    assert EntryOk(w.log, db, k, entry);
    var e := Ran(entry.expiry.value - 300_000, db, SetEx(k, s, 300));
    var j :| 0 <= j < |w.log| && w.log[j] == e;
    assert Issues(w.log[j], ty, user, salt, s, w'.now);
  }

  lemma NotedKeeps(w: World, ty: PostType, user: string, salt: string, s: string)
    requires LogOk(w) && StoreOk(w) && Issued(w.log, |w.log|, ty, user, salt, s, w.now)
    ensures var w' := Noted(w, ty, user, salt, s);
            LogOk(w') && StoreOk(w') && w.log <= w'.log && Looked(w'.log, |w'.log|, ty, user, salt, s, w.now)
  {
    var w' := Noted(w, ty, user, salt, s);
    var j :| 0 <= j < |w.log| && Issues(w.log[j], ty, user, salt, s, w.now);
    assert w'.log[j] == w.log[j];
    LogGrows(w, w', SessRead(w.now, ty, user, salt, s));
    forall d, k | (d, k) in w'.store ensures EntryOk(w'.log, d, k, w'.store[(d, k)]) {
      EntryStaysOk(w.log, w'.log, d, k, w.store[(d, k)]);
    }
    assert w'.log[|w.log|] == SessRead(w.now, ty, user, salt, s);
  }

  lemma PassedKeeps(w: World, ty: PostType, ip: string, n: int, armed: bool)
    requires LogOk(w) && StoreOk(w)
    ensures var w' := Passed(w, ty, ip, n, armed);
            LogOk(w') && StoreOk(w') && w.log <= w'.log
  {
    var w' := Passed(w, ty, ip, n, armed);
    LogGrows(w, w', GatePassed(w.now, ty, ip, n, armed));
    forall d, k | (d, k) in w'.store ensures EntryOk(w'.log, d, k, w'.store[(d, k)]) {
      EntryStaysOk(w.log, w'.log, d, k, w.store[(d, k)]);
    }
  }

  // ----- One step of one worker -----

  /** The world and the worker that performed the step stay in order. */
  ghost predicate Kept(form: Form, w: World, w': World, me': Worker) {
    LogOk(w') && StoreOk(w') && w.log <= w'.log && WorkerOk(form, w'.log, me')
  }

  lemma GateStepKeeps(env: Env, w: World, me: Worker, db: int)
    requires IsIpCountDb(db) && LogOk(w) && StoreOk(w) && PcOk(me.pc) && WorkerOk(env.form, w.log, me)
    requires me.pc.AtGate? || me.pc.AtFlag? || me.pc.AtReconnect? || me.pc.AtIncr?
    ensures Kept(env.form, w, Advance(env, w, me, db).0, Advance(env, w, me, db).1)
  {
    hide LogOk, StoreOk, Settle, DecText;
    var w0 := w.(link := me.link);
    IdleKeeps(w, w0);
    match me.pc
    case AtGate => IdleKeeps(w0, Connect(env.tape, w0, db).0);
    case AtFlag(d) =>
      var cmd := Exists(OkKey(me.ty, me.rq.ip));
      CommandKeeps(w0, Issue(env.tape, w0, d, cmd).0, d, cmd);
    case AtReconnect(d, _) => IdleKeeps(w0, Connect(env.tape, w0, d).0);
    case AtIncr(d, _) =>
      var cmd := Incr(FailedKey(me.ty, me.rq.ip));
      CommandKeeps(w0, Issue(env.tape, w0, d, cmd).0, d, cmd);
  }

  lemma BehindGateOk(form: Form, log: seq<Event>, me: Worker)
    requires me.pc == BehindGate(me.ty, me.rq)
    ensures WorkerOk(form, log, me)
  {
    hide ParseSession, HeadEnd;
  }

  lemma PassStepKeeps(env: Env, w: World, me: Worker, db: int)
    requires IsIpCountDb(db) && LogOk(w) && StoreOk(w) && me.pc.AtExpire? && WorkerOk(env.form, w.log, me)
    ensures Kept(env.form, w, Advance(env, w, me, db).0, Advance(env, w, me, db).1)
  {
    hide LogOk, StoreOk, Settle, DecText, BehindGate;
    var w0 := w.(link := me.link);
    IdleKeeps(w, w0);
    var AtExpire(d, _, n) := me.pc;
    var cmd := Expire(FailedKey(me.ty, me.rq.ip), SIGNUP_FAILED_TTL);
    CommandKeeps(w0, Issue(env.tape, w0, d, cmd).0, d, cmd);
    var expire := GetInt(env.tape, w0, d, cmd);
    PassedKeeps(expire.w, me.ty, me.rq.ip, n, expire.n == 1);
    var me' := Advance(env, w, me, db).1;
    if me'.pc == BehindGate(me.ty, me.rq) { BehindGateOk(env.form, Advance(env, w, me, db).0.log, me'); }
  }

  lemma NewSessionStepKeeps(env: Env, w: World, me: Worker, db: int)
    requires IsIpCountDb(db) && LogOk(w) && StoreOk(w) && PcOk(me.pc) && (me.pc.AtNewSession? || me.pc.AtNewSalt?)
    ensures Kept(env.form, w, Advance(env, w, me, db).0, Advance(env, w, me, db).1)
  {
    hide LogOk, StoreOk, Settle, DecText;
    var w0 := w.(link := me.link);
    IdleKeeps(w, w0);
    match me.pc
    case AtNewSession(user) =>
      var cmd := SetEx(SessKey(me.ty, user, me.rq.sesv), me.rq.sess, SESS_TTL);
      CommandKeeps(w0, Issue(env.tape, w0, db, cmd).0, db, cmd);
    case AtNewSalt(user) =>
      var cmd := HGet(UserKey(Login, user), "salt");
      CommandKeeps(w0, Issue(env.tape, w0, SALT_LOGIN_DB, cmd).0, SALT_LOGIN_DB, cmd);
  }

  lemma LookupStepKeeps(env: Env, w: World, me: Worker, db: int)
    requires IsIpCountDb(db) && LogOk(w) && StoreOk(w) && PcOk(me.pc) && me.pc.AtLookup?
    requires WorkerOk(env.form, w.log, me)
    ensures Kept(env.form, w, Advance(env, w, me, db).0, Advance(env, w, me, db).1)
  {
    hide LogOk, StoreOk, Settle, DecText, Looked, ParseSession, CookieOf;
    var p, w0 := me.pc.p, w.(link := me.link);
    IdleKeeps(w, w0);
    var cmd := Get(SessKey(me.ty, p.user, p.salt));
    var (w1, reply) := Issue(env.tape, w0, db, cmd);
    CommandKeeps(w0, w1, db, cmd);
    var saved := GetString(env.tape, w0, db, SALT_LEN, cmd);
    if saved.rt == 0 {
      AnsweredSessionWasIssued(w0, w1, db, me.ty, p.user, p.salt, saved.s);
      IssuedStays(w0.log, w1.log, me.ty, p.user, p.salt, saved.s, w1.now);
      NotedKeeps(w1, me.ty, p.user, p.salt, saved.s);
    }
  }

  lemma IssuedStays(log: seq<Event>, log': seq<Event>, ty: PostType, user: string, salt: string, v: string, at: int)
    requires log <= log' && Issued(log, |log|, ty, user, salt, v, at)
    ensures Issued(log', |log'|, ty, user, salt, v, at)
  {
    var j :| 0 <= j < |log| && Issues(log[j], ty, user, salt, v, at);
    assert log'[j] == log[j];
  }

  /** No record key but login's exists, so the literal guard finds nothing for the others. */
  lemma GuardStepKeeps(env: Env, w: World, me: Worker, db: int)
    requires IsIpCountDb(db) && LogOk(w) && StoreOk(w) && PcOk(me.pc) && me.pc.AtGuard? && WorkerOk(env.form, w.log, me)
    ensures Kept(env.form, w, Advance(env, w, me, db).0, Advance(env, w, me, db).1)
  {
    hide LogOk, StoreOk, Settle, DecText, Looked, ParseSession, CookieOf;
    var p, w0 := me.pc.p, w.(link := me.link);
    IdleKeeps(w, w0);
    var k := GuardKey(env.form, me.ty, p.user);
    var w1 := Issue(env.tape, w0, SALT_LOGIN_DB, Exists(k)).0;
    CommandKeeps(w0, w1, SALT_LOGIN_DB, Exists(k));
    if (SALT_LOGIN_DB, k) in w0.store { OnlyLoginRecords(w0, SALT_LOGIN_DB, k); }
    CheckedStays(w.log, w1.log, me);
  }

  lemma OnlyLoginRecords(w: World, db: int, k: Key)
    requires StoreOk(w) && k.UserKey? && (db, k) in w.store
    ensures k.ty == Login
  {
    assert EntryOk(w.log, db, k, w.store[(db, k)]);
  }

  lemma FlagStepKeeps(env: Env, w: World, me: Worker, db: int)
    requires IsIpCountDb(db) && LogOk(w) && StoreOk(w) && PcOk(me.pc) && me.pc.AtSetFlag?
    requires WorkerOk(env.form, w.log, me)
    ensures Kept(env.form, w, Advance(env, w, me, db).0, Advance(env, w, me, db).1)
  {
    hide LogOk, StoreOk, Settle, DecText, Looked, ParseSession, CookieOf;
    var w0 := w.(link := me.link);
    IdleKeeps(w, w0);
    var cmd := SetEx(OkKey(Signup, FlagIp(env.form, me.rq)), "1", SIGNUP_OK_TTL);
    var w1 := Issue(env.tape, w0, db, cmd).0;
    CommandKeeps(w0, w1, db, cmd);
    CheckedStays(w.log, w1.log, me);
  }

  lemma CheckedSignupLooked(log: seq<Event>, me: Worker, p: Parsed)
    requires me.ty == Signup && p == ParseSession(me.ty, me.rq.json) && Checked(log, me)
    ensures SignupLooked(log, |log|, p.user, p.salt) && Recordable(p.user, NewRecord(p.passwd, p.salt))
  {
    hide CookieOf;
    var j :| 0 <= j < |log| && log[j] == SessRead(me.readAt, me.ty, p.user, p.salt, CookieOf(me.ty, me.rq).value);
  }

  lemma RecordStepKeeps(env: Env, w: World, me: Worker, db: int)
    requires IsIpCountDb(db) && LogOk(w) && StoreOk(w) && PcOk(me.pc) && WorkerOk(env.form, w.log, me)
    requires me.pc.AtHSet? || me.pc.AtHExpire?
    ensures Kept(env.form, w, Advance(env, w, me, db).0, Advance(env, w, me, db).1)
  {
    hide LogOk, StoreOk, Settle, Effect, TrueReply, Truthful, DecText, Looked, ParseSession, CookieOf, Recordable;
    var p, w0 := me.pc.p, w.(link := me.link);
    IdleKeeps(w, w0);
    match me.pc
    case AtHSet(_) =>
      var cmd := HSet(UserKey(Login, p.user), NewRecord(p.passwd, p.salt));
      CheckedSignupLooked(w0.log, me, p);
      assert cmd.fields["salt"] == p.salt;
      var w1 := Issue(env.tape, w0, SALT_LOGIN_DB, cmd).0;
      CommandKeeps(w0, w1, SALT_LOGIN_DB, cmd);
      CheckedStays(w.log, w1.log, me);
    case AtHExpire(_) =>
      var cmd := Expire(UserKey(Login, p.user), NEW_USER_TTL);
      var w1 := Send(env.tape, w0, SALT_LOGIN_DB, cmd).0;
      CommandKeeps(w0, w1, SALT_LOGIN_DB, cmd);
      CheckedStays(w.log, w1.log, me);
  }

  lemma LoginStepKeeps(env: Env, w: World, me: Worker, db: int)
    requires IsIpCountDb(db) && LogOk(w) && StoreOk(w) && PcOk(me.pc) && WorkerOk(env.form, w.log, me)
    requires me.pc.AtHash? || me.pc.AtSalt?
    ensures Kept(env.form, w, Advance(env, w, me, db).0, Advance(env, w, me, db).1)
  {
    hide LogOk, StoreOk, Settle, DecText, Looked, ParseSession, CookieOf, LoginCheck;
    var p, w0 := me.pc.p, w.(link := me.link);
    IdleKeeps(w, w0);
    var cmd := HGet(UserKey(Login, p.user), if me.pc.AtHash? then "hash" else "salt");
    var w1 := Issue(env.tape, w0, SALT_LOGIN_DB, cmd).0;
    CommandKeeps(w0, w1, SALT_LOGIN_DB, cmd);
    CheckedStays(w.log, w1.log, me);
  }

  lemma StepKeeps(env: Env, w: World, me: Worker, db: int)
    requires IsIpCountDb(db) && LogOk(w) && StoreOk(w) && PcOk(me.pc) && Active(me.pc) && WorkerOk(env.form, w.log, me)
    ensures Kept(env.form, w, Advance(env, w, me, db).0, Advance(env, w, me, db).1)
  {
    hide Advance, Kept, WorkerOk, LogOk, StoreOk;
    match me.pc
    case AtGate => GateStepKeeps(env, w, me, db);
    case AtFlag(_) => GateStepKeeps(env, w, me, db);
    case AtReconnect(_, _) => GateStepKeeps(env, w, me, db);
    case AtIncr(_, _) => GateStepKeeps(env, w, me, db);
    case AtExpire(_, _, _) => PassStepKeeps(env, w, me, db);
    case AtNewSession(_) => NewSessionStepKeeps(env, w, me, db);
    case AtNewSalt(_) => NewSessionStepKeeps(env, w, me, db);
    case AtLookup(_) => LookupStepKeeps(env, w, me, db);
    case AtGuard(_) => GuardStepKeeps(env, w, me, db);
    case AtSetFlag(_) => FlagStepKeeps(env, w, me, db);
    case AtHSet(_) => RecordStepKeeps(env, w, me, db);
    case AtHExpire(_) => RecordStepKeeps(env, w, me, db);
    case AtHash(_) => LoginStepKeeps(env, w, me, db);
    case AtSalt(_, _) => LoginStepKeeps(env, w, me, db);
  }

  lemma MoveKeeps(env: Env, s: Sys, m: Move)
    requires SysOk(s) && SysInv(env.form, s)
    ensures SysInv(env.form, Do(env, s, m))
  {
    hide Step, Classify, WorkerOk, LogOk, StoreOk;
    var s' := Do(env, s, m);
    if m.Go? && s' != s {
      StepKeeps(env, s.w, s.workers[m.i], m.db);
      assert s'.workers[m.i] == Advance(env, s.w, s.workers[m.i], m.db).1;
      assert s'.w == Advance(env, s.w, s.workers[m.i], m.db).0;
      forall i | 0 <= i < |s'.workers| ensures WorkerOk(env.form, s'.w.log, s'.workers[i]) {
        if i != m.i { WorkerStaysOk(env.form, s.w.log, s'.w.log, s.workers[i]); }
      }
    } else {
      forall i | 0 <= i < |s'.workers| ensures WorkerOk(env.form, s'.w.log, s'.workers[i]) {
        if m.Begin? && i == m.i { BeginOk(env.form, s, s', i); }
      }
    }
  }

  lemma BeginOk(form: Form, s: Sys, s': Sys, i: nat)
    requires i < |s.workers| == |s'.workers| && WorkerOk(form, s.w.log, s.workers[i]) && s'.w == s.w
    requires s'.workers[i] == s.workers[i] || s'.workers[i].pc.AtGate?
    ensures WorkerOk(form, s'.w.log, s'.workers[i])
  {
  }

  lemma {:induction false} RunKeeps(env: Env, s: Sys, moves: seq<Move>)
    requires SysOk(s) && SysInv(env.form, s)
    ensures SysInv(env.form, RunAll(env, s, moves))
    decreases |moves|
  {
    hide Do, SysInv;
    if moves != [] {
      MoveKeeps(env, s, moves[0]);
      RunKeeps(env, Do(env, s, moves[0]), moves[1..]);
    }
  }

  /** The invariant holds in every reachable state. */
  lemma ReachableOk(env: Env, n: nat, moves: seq<Move>)
    ensures SysInv(env.form, RunAll(env, Start(n), moves))
  {
    assert SysInv(env.form, Start(n));
    RunKeeps(env, Start(n), moves);
  }

  // ----- The main results -----

  /** Session provenance. Whenever a worker has answered a submission with success, the
      session it presented was looked up earlier in the run, and was issued before that
      lookup, less than 300 s earlier, for the same request type, name and salt, with
      exactly the value of the submitted cookie. No order of commands, no failure and no
      stray reading of the shared index changes that. */
  lemma SessionProvenance(env: Env, n: nat, moves: seq<Move>, i: nat)
    requires i < n && RunAll(env, Start(n), moves).workers[i].pc.Closed?
    requires RunAll(env, Start(n), moves).workers[i].pc.rt == 0
    ensures var s := RunAll(env, Start(n), moves);
            var me := s.workers[i];
            var p := ParseSession(me.ty, me.rq.json);
            && p.Submit? && CookieOf(me.ty, me.rq).Found?
            && exists b :: 0 <= b < |s.w.log|
                 && s.w.log[b] == SessRead(me.readAt, me.ty, p.user, p.salt, CookieOf(me.ty, me.rq).value)
                 && Issued(s.w.log, b, me.ty, p.user, p.salt, CookieOf(me.ty, me.rq).value, me.readAt)
  {
    hide RunAll, CookieOf, ParseSession, Issued;
    ReachableOk(env, n, moves);
    var s := RunAll(env, Start(n), moves);
    var me := s.workers[i];
    assert WorkerOk(env.form, s.w.log, me);
    var p := ParseSession(me.ty, me.rq.json);
    var b :| 0 <= b < |s.w.log|
        && s.w.log[b] == SessRead(me.readAt, me.ty, p.user, p.salt, CookieOf(me.ty, me.rq).value);
    assert EventOk(s.w.log, b);
  }

  /** The user table. Every record in every reachable state stands under a clean name at
      loginUser, is exactly the record of one HSET of the run, has a non-zero 64-digit
      hash and 32-digit salt, level 0 and status active; and before that HSET the run
      holds a lookup of a signup session of this name and salt. */
  lemma UserTable(env: Env, n: nat, moves: seq<Move>, db: int, ty: PostType, user: string)
    requires (db, UserKey(ty, user)) in RunAll(env, Start(n), moves).w.store
    ensures var w := RunAll(env, Start(n), moves).w;
            var value := w.store[(db, UserKey(ty, user))].value;
            && ty == Login && value.Fields? && Recordable(user, value.fields)
            && exists c :: 0 <= c < |w.log| && w.log[c].Ran? && w.log[c].cmd == HSet(UserKey(Login, user), value.fields)
                 && SignupLooked(w.log, c, user, value.fields["salt"])
  {
    hide RunAll, Recordable;
    ReachableOk(env, n, moves);
    var w := RunAll(env, Start(n), moves).w;
    var k := UserKey(ty, user);
    var entry := w.store[(db, k)];
    assert EntryOk(w.log, db, k, entry);
    var c :| 0 <= c < |w.log| && w.log[c].Ran? && w.log[c].db == db && w.log[c].cmd == HSet(k, entry.value.fields);
    assert EventOk(w.log, c);
  }

  /** The store and the history, in every reachable state: every executed command is one of the
      daemon's, in its database and with its lifetime; every entry is what such commands leave,
      and its expiry is its lifetime after the command that set it. */
  lemma EntriesAndCommands(env: Env, n: nat, moves: seq<Move>, db: int, k: Key, b: nat)
    ensures var w := RunAll(env, Start(n), moves).w;
            && ((db, k) in w.store ==> EntryOk(w.log, db, k, w.store[(db, k)]))
            && (b < |w.log| && w.log[b].Ran? ==> Allowed(w.log[b].cmd) && InPlace(w.log[b].db, w.log[b].cmd.key))
  {
    hide RunAll, Allowed, EntryOk;
    ReachableOk(env, n, moves);
    var w := RunAll(env, Start(n), moves).w;
    if b < |w.log| { assert EventOk(w.log, b); }
  }

  /** And every lookup in a run found a session issued less than 300 s before it, to that
      name, with that salt and value. */
  lemma LookupsAreOfIssued(env: Env, n: nat, moves: seq<Move>, b: nat)
    requires b < |RunAll(env, Start(n), moves).w.log| && RunAll(env, Start(n), moves).w.log[b].SessRead?
    ensures var log := RunAll(env, Start(n), moves).w.log;
            Issued(log, b, log[b].ty, log[b].user, log[b].salt, log[b].value, log[b].at)
  {
    hide RunAll, Issued;
    ReachableOk(env, n, moves);
    assert EventOk(RunAll(env, Start(n), moves).w.log, b);
  }

  /** A stored hash or salt always has the length its reader insists on: the lookup
      yields it, or the record is gone; the length error 125041 cannot occur. */
  lemma RecordLengthsFit(env: Env, n: nat, moves: seq<Move>, db: int, user: string, now: int)
    ensures var w := RunAll(env, Start(n), moves).w;
            var hash := TrueReply(w.store, db, HGet(UserKey(Login, user), "hash"), now);
            var salt := TrueReply(w.store, db, HGet(UserKey(Login, user), "salt"), now);
            var live := Live(w.store, db, UserKey(Login, user), now);
            && StringVerdict(hash, PASSWD_LEN) == (if live then 0 else 125021)
            && StringVerdict(salt, SALT_LEN) == (if live then 0 else 125021)
  {
    hide RunAll;
    var w := RunAll(env, Start(n), moves).w;
    if (db, UserKey(Login, user)) in w.store { UserTable(env, n, moves, db, Login, user); }
  }

  /** What the literal guard amounts to, in every reachable state: no record stands under
      a signupUser or adminUser key, no signup is ever turned away as a duplicate, and no
      admin submission is ever accepted. */
  lemma LiteralGuardFindsNothing(env: Env, n: nat, moves: seq<Move>, i: nat)
    requires !env.form.guardOnRecord && i < n && RunAll(env, Start(n), moves).workers[i].pc.Closed?
    ensures var me := RunAll(env, Start(n), moves).workers[i];
            && me.pc.rt != 211100
            && (me.ty == Admin ==> me.pc.rt != 0)
    ensures forall db, ty, user :: (db, UserKey(ty, user)) in RunAll(env, Start(n), moves).w.store ==> ty == Login
  {
    hide RunAll;
    ReachableOk(env, n, moves);
    var s := RunAll(env, Start(n), moves);
    assert WorkerOk(env.form, s.w.log, s.workers[i]);
    forall db, ty, user | (db, UserKey(ty, user)) in s.w.store ensures ty == Login {
      OnlyLoginRecords(s.w, db, UserKey(ty, user));
    }
  }

  /** The user table after a run of one worker: every record is one that the daemon writes,
      under a loginUser key. */
  lemma RunUserTable(env: Env, rqs: seq<Request>, db: int, ty: PostType, user: string)
    requires (db, UserKey(ty, user)) in Run(env, FRESH, rqs).store
    ensures var value := Run(env, FRESH, rqs).store[(db, UserKey(ty, user))].value;
            ty == Login && value.Fields? && Recordable(user, value.fields)
  {
    hide RunAll, RunMoves, Run, Recordable;
    RunIsReachable(env, rqs);
    UserTable(env, 1, RunMoves(rqs), db, ty, user);
  }
}
