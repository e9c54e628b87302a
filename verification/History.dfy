/** What a run leaves behind on one key, and which keys a request can change. */
module History {
  import opened Common
  import opened RedisStore
  import opened HttpParser
  import opened PostPath
  import opened Hashing
  import opened Protocol

  predicate Mutates(cmd: Cmd) {
    cmd.SetEx? || cmd.HSet? || cmd.Incr? || cmd.Expire?
  }

  /** Executed changes of (db, k), and the gate passes its counter k granted. */
  predicate Concerns(e: Event, db: int, k: Key) {
    match e
    case Ran(_, d, cmd) => d == db && cmd.key == k && Mutates(cmd)
    case GatePassed(_, gate, ip, _, _) => db == IpCountDb(gate) && k == FailedKey(gate, ip)
    case SessRead(_, _, _, _, _) => false
  }

  function Trace(log: seq<Event>, db: int, k: Key): seq<Event> {
    if log == [] then []
    else
      var e := log[|log| - 1];
      Trace(log[..|log| - 1], db, k) + if Concerns(e, db, k) then [e] else []
  }

  lemma TraceSnoc(log: seq<Event>, e: Event, db: int, k: Key)
    ensures Trace(log + [e], db, k) == Trace(log, db, k) + if Concerns(e, db, k) then [e] else []
  {
    assert (log + [e])[..|log|] == log;
  }

  /** Nothing happened to (db, k): same entry, same history. */
  ghost predicate Untouched(w: World, w': World, db: int, k: Key) {
    && At(w'.store, db, k) == At(w.store, db, k)
    && Trace(w'.log, db, k) == Trace(w.log, db, k)
  }

  lemma EffectFrame(st: Store, d: int, cmd: Cmd, now: int, db: int, k: Key)
    requires (d, cmd.key) != (db, k) || !Mutates(cmd)
    ensures At(Effect(st, d, cmd, now), db, k) == At(st, db, k)
  {
  }

  lemma StepFrame(w: World, w': World, d: int, cmd: Cmd, db: int, k: Key)
    requires Stepped(w, w', d, cmd)
    requires (d, cmd.key) != (db, k) || !Mutates(cmd)
    ensures Untouched(w, w', db, k)
  {
    hide Effect, At, Trace;
    EffectFrame(w.store, d, cmd, w'.now, db, k);
    TraceSnoc(w.log, Ran(w'.now, d, cmd), db, k);
  }

  lemma SetHsetFrame(tape: Tape, w: World, d: int, ttl: int, cmd: Cmd, db: int, k: Key)
    requires cmd.SetEx? || cmd.HSet?
    requires (d, cmd.key) != (db, k)
    ensures Untouched(w, SetHset(tape, w, d, ttl, cmd).w, db, k)
    ensures w.now <= SetHset(tape, w, d, ttl, cmd).w.now
  {
    hide At, Trace, Truthful, Settle, Effect, TrueReply;
    var (w1, reply) := Issue(tape, w, d, cmd);
    StepFrame(w, w1, d, cmd, db, k);
    var (w2, _) := Send(tape, w1, d, Expire(cmd.key, ttl));
    StepFrame(w1, w2, d, Expire(cmd.key, ttl), db, k);
  }

  lemma GetIntFrame(tape: Tape, w: World, d: int, cmd: Cmd, db: int, k: Key)
    requires (d, cmd.key) != (db, k) || !Mutates(cmd)
    ensures Untouched(w, GetInt(tape, w, d, cmd).w, db, k)
    ensures w.now <= GetInt(tape, w, d, cmd).w.now
  {
    hide At, Trace, Effect, TrueReply;
    StepFrame(w, GetInt(tape, w, d, cmd).w, d, cmd, db, k);
  }

  lemma GetStringFrame(tape: Tape, w: World, d: int, len: nat, cmd: Cmd, db: int, k: Key)
    requires cmd.Get? || cmd.HGet?
    ensures Untouched(w, GetString(tape, w, d, len, cmd).w, db, k)
    ensures w.now <= GetString(tape, w, d, len, cmd).w.now
  {
    hide At, Trace, Effect, TrueReply;
    StepFrame(w, GetString(tape, w, d, len, cmd).w, d, cmd, db, k);
  }

  lemma IncrementFrame(tape: Tape, w: World, d: int, ttl: int, key: Key, db: int, k: Key)
    requires (d, key) != (db, k)
    ensures Untouched(w, Increment(tape, w, d, ttl, key).w, db, k)
    ensures w.now <= Increment(tape, w, d, ttl, key).w.now
  {
    hide At, Trace, GetInt;
    var (w1, up) := Connect(tape, w, d);
    if up {
      var incr := GetInt(tape, w1, d, Incr(key));
      GetIntFrame(tape, w1, d, Incr(key), db, k);
      GetIntFrame(tape, incr.w, d, Expire(key, ttl), db, k);
    }
  }

  /** The gate changes only its own counter. */
  lemma GateFrame(tape: Tape, w: World, ty: PostType, ip: string, db: int, k: Key)
    requires (db, k) != (IpCountDb(ty), FailedKey(ty, ip))
    ensures Untouched(w, CheckIp(tape, w, IpCountDb(ty), ty, ip).w, db, k)
    ensures w.now <= CheckIp(tape, w, IpCountDb(ty), ty, ip).w.now
  {
    hide At, Trace, GetInt, Increment;
    var d := IpCountDb(ty);
    var (w1, up) := Connect(tape, w, d);
    if up {
      var flag := GetInt(tape, w1, d, Exists(OkKey(ty, ip)));
      GetIntFrame(tape, w1, d, Exists(OkKey(ty, ip)), db, k);
      var count := Increment(tape, flag.w, d, SIGNUP_FAILED_TTL, FailedKey(ty, ip));
      IncrementFrame(tape, flag.w, d, SIGNUP_FAILED_TTL, FailedKey(ty, ip), db, k);
      TraceSnoc(count.w.log, GatePassed(count.w.now, ty, ip, count.n, count.armed), db, k);
    }
  }

  lemma IssueSessionFrame(env: Env, w: World, ty: PostType, rq: Request, user: string, db: int, k: Key)
    requires (db, k) != (IpCountDb(ty), SessKey(ty, user, rq.sesv))
    ensures Untouched(w, IssueSession(env, w, ty, rq, user).w, db, k)
    ensures w.now <= IssueSession(env, w, ty, rq, user).w.now
  {
    hide At, Trace, SetHset, GetString;
    var cmd := SetEx(SessKey(ty, user, rq.sesv), rq.sess, SESS_TTL);
    SetHsetFrame(env.tape, w, IpCountDb(ty), SESS_TTL, cmd, db, k);
    var put := SetHset(env.tape, w, IpCountDb(ty), SESS_TTL, cmd);
    GetStringFrame(env.tape, put.w, SALT_LOGIN_DB, SALT_LEN, HGet(UserKey(Login, user), "salt"), db, k);
  }

  lemma CheckSessionFrame(env: Env, w: World, ty: PostType, rq: Request, user: string, salt: string, db: int, k: Key)
    ensures Untouched(w, CheckSession(env, w, ty, rq, user, salt).w, db, k)
    ensures w.now <= CheckSession(env, w, ty, rq, user, salt).w.now
  {
    hide At, Trace, GetString, CookieOf;
    var saved := GetString(env.tape, w, IpCountDb(ty), SALT_LEN, Get(SessKey(ty, user, salt)));
    GetStringFrame(env.tape, w, IpCountDb(ty), SALT_LEN, Get(SessKey(ty, user, salt)), db, k);
    TraceSnoc(saved.w.log, SessRead(saved.w.now, ty, user, salt, saved.s), db, k);
  }

  lemma LoginTailFrame(env: Env, w: World, rq: Request, user: string, passwd: string, salt: string, db: int, k: Key)
    ensures Untouched(w, LoginTail(env, w, rq, user, passwd, salt).w, db, k)
    ensures w.now <= LoginTail(env, w, rq, user, passwd, salt).w.now
  {
    hide At, Trace, GetString, LoginCheck;
    var hash := GetString(env.tape, w, SALT_LOGIN_DB, PASSWD_LEN, HGet(UserKey(Login, user), "hash"));
    GetStringFrame(env.tape, w, SALT_LOGIN_DB, PASSWD_LEN, HGet(UserKey(Login, user), "hash"), db, k);
    GetStringFrame(env.tape, hash.w, SALT_LOGIN_DB, SALT_LEN, HGet(UserKey(Login, user), "salt"), db, k);
  }

  lemma SignupTailFrame(env: Env, w: World, rq: Request, user: string, passwd: string, salt: string, db: int, k: Key)
    requires (db, k) != (IpCountDb(Signup), OkKey(Signup, FlagIp(env.form, rq)))
    requires (db, k) != (SALT_LOGIN_DB, UserKey(Login, user))
    ensures Untouched(w, SignupTail(env, w, rq, user, passwd, salt).w, db, k)
    ensures w.now <= SignupTail(env, w, rq, user, passwd, salt).w.now
  {
    hide At, Trace, SetHset;
    var cmd := SetEx(OkKey(Signup, FlagIp(env.form, rq)), "1", SIGNUP_OK_TTL);
    SetHsetFrame(env.tape, w, IpCountDb(Signup), SIGNUP_OK_TTL, cmd, db, k);
    var flag := SetHset(env.tape, w, IpCountDb(Signup), SIGNUP_OK_TTL, cmd);
    SetHsetFrame(env.tape, flag.w, SALT_LOGIN_DB, NEW_USER_TTL,
                 HSet(UserKey(Login, user), NewRecord(passwd, salt)), db, k);
  }

  /** Everything that a request of type ty can change behind the gate. */
  function MutatedBehindGate(form: Form, ty: PostType, rq: Request): set<(int, Key)> {
    match ParseSession(ty, rq.json)
    case Rejected(_) => {}
    case NewSession(user) => {(IpCountDb(ty), SessKey(ty, user, rq.sesv))}
    case Submit(user, _, _) =>
      if ty == Signup then {(IpCountDb(Signup), OkKey(Signup, FlagIp(form, rq))), (SALT_LOGIN_DB, UserKey(Login, user))}
      else {}
  }

  function Mutated(form: Form, ty: PostType, rq: Request): set<(int, Key)> {
    {(IpCountDb(ty), FailedKey(ty, rq.ip))} + MutatedBehindGate(form, ty, rq)
  }

  /** (db, k) is not among the keys that the request can change. */
  predicate Spares(form: Form, rq: Request, db: int, k: Key) {
    Classify(rq.buffer).Accepted? ==> (db, k) !in Mutated(form, Classify(rq.buffer).ty, rq)
  }

  lemma BehindGateFrame(env: Env, w: World, ty: PostType, rq: Request, db: int, k: Key)
    requires (db, k) !in MutatedBehindGate(env.form, ty, rq)
    ensures Untouched(w, AfterGate(env, w, ty, rq).w, db, k)
    ensures w.now <= AfterGate(env, w, ty, rq).w.now
  {
    hide At, Trace, CheckSession, CheckRecord, IssueSession, ParseSession;
    match ParseSession(ty, rq.json)
    case Rejected(_) =>
    case NewSession(user) =>
      IssueSessionFrame(env, w, ty, rq, user, db, k);
    case Submit(user, passwd, salt) =>
      CheckSessionFrame(env, w, ty, rq, user, salt, db, k);
      var session := CheckSession(env, w, ty, rq, user, salt);
      CheckRecordFrame(env, session.w, ty, rq, user, passwd, salt, db, k);
  }

  lemma CheckRecordFrame(env: Env, w: World, ty: PostType, rq: Request, user: string, passwd: string, salt: string,
                         db: int, k: Key)
    requires ty == Signup ==> (db, k) != (IpCountDb(Signup), OkKey(Signup, FlagIp(env.form, rq)))
    requires ty == Signup ==> (db, k) != (SALT_LOGIN_DB, UserKey(Login, user))
    ensures Untouched(w, CheckRecord(env, w, ty, rq, user, passwd, salt).w, db, k)
    ensures w.now <= CheckRecord(env, w, ty, rq, user, passwd, salt).w.now
  {
    hide At, Trace, GetInt, SignupTail, LoginTail;
    var guard := Exists(GuardKey(env.form, ty, user));
    GetIntFrame(env.tape, w, SALT_LOGIN_DB, guard, db, k);
    var found := GetInt(env.tape, w, SALT_LOGIN_DB, guard);
    if ty == Signup { SignupTailFrame(env, found.w, rq, user, passwd, salt, db, k); }
    else { LoginTailFrame(env, found.w, rq, user, passwd, salt, db, k); }
  }

  /** A request leaves every entry alone that is not in its own short list: the
      entries of other addresses, other names, other sessions. */
  lemma RequestFrame(env: Env, w: World, ty: PostType, rq: Request, db: int, k: Key)
    requires (db, k) !in Mutated(env.form, ty, rq)
    ensures Untouched(w, Handle(env, w, ty, rq).w, db, k)
    ensures w.now <= Handle(env, w, ty, rq).w.now
  {
    hide At, Trace, CheckIp, AfterGate, MutatedBehindGate;
    GateFrame(env.tape, w, ty, rq.ip, db, k);
    var gate := CheckIp(env.tape, w, IpCountDb(ty), ty, rq.ip);
    if gate.rt == 0 { BehindGateFrame(env, gate.w, ty, rq, db, k); }
  }

  lemma ServeFrame(env: Env, w: World, rq: Request, db: int, k: Key)
    requires Spares(env.form, rq, db, k)
    ensures Untouched(w, Serve(env, w, rq).w, db, k)
    ensures w.now <= Serve(env, w, rq).w.now
  {
    hide At, Trace, Handle;
    if Classify(rq.buffer).Accepted? { RequestFrame(env, w, Classify(rq.buffer).ty, rq, db, k); }
  }

  /** And so does a run, every entry that no request of it can change. */
  lemma {:induction false} RunFrame(env: Env, w: World, rqs: seq<Request>, db: int, k: Key)
    requires forall i :: 0 <= i < |rqs| ==> Spares(env.form, rqs[i], db, k)
    ensures Untouched(w, Run(env, w, rqs), db, k) && w.now <= Run(env, w, rqs).now
    decreases |rqs|
  {
    hide Serve, Spares, Trace, At;
    if rqs != [] {
      ServeFrame(env, w, rqs[0], db, k);
      RunFrame(env, Serve(env, w, rqs[0]).w, rqs[1..], db, k);
    }
  }

  lemma ServeTime(env: Env, w: World, rq: Request)
    ensures w.now <= Serve(env, w, rq).w.now
  {
    // A key that no request changes.
    ServeFrame(env, w, rq, -1, FailedKey(Signup, ""));
  }

  lemma {:induction false} RunTime(env: Env, w: World, rqs: seq<Request>)
    ensures w.now <= Run(env, w, rqs).now
    decreases |rqs|
  {
    hide Serve;
    if rqs != [] {
      ServeTime(env, w, rqs[0]);
      RunTime(env, Serve(env, w, rqs[0]).w, rqs[1..]);
    }
  }

  lemma {:induction false} RunSplits(env: Env, w: World, first: seq<Request>, then_: seq<Request>)
    ensures Run(env, w, first + then_) == Run(env, Run(env, w, first), then_)
    decreases |first|
  {
    hide Serve;
    if first == [] {
      assert first + then_ == then_;
    } else {
      assert (first + then_)[1..] == first[1..] + then_;
      RunSplits(env, Serve(env, w, first[0]).w, first[1..], then_);
    }
  }

  lemma AfterRequest(env: Env, rqs: seq<Request>, i: nat)
    requires i < |rqs|
    ensures Run(env, FRESH, rqs[..i + 1]) == Serve(env, Run(env, FRESH, rqs[..i]), rqs[i]).w
  {
    hide Serve;
    assert rqs[..i + 1] == rqs[..i] + [rqs[i]];
    RunSplits(env, FRESH, rqs[..i], [rqs[i]]);
    var w := Run(env, FRESH, rqs[..i]);
    assert [rqs[i]][1..] == [];
    assert Run(env, Serve(env, w, rqs[i]).w, []) == Serve(env, w, rqs[i]).w;
  }
}
