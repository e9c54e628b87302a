/** What a caller of the request handler can rely on, whatever happened inside: which
    response went out for which return value, and when a user record can have changed
    (src/http_server_main_loop_handler.c, src/sess_handle_new_request.c). */
module Outcomes {
  import opened Common
  import opened RedisStore
  import opened HttpParser
  import opened Hashing
  import opened Protocol
  import opened History
  import opened Interleaving

  /** One 200 exactly for the returns 0 and 1; one 422 for every other return but
      211051, which leaves the client without an answer. */
  predicate Consistent(rt: int, sent: seq<Response>) {
    && (rt == 0 <==> sent == [Welcome])
    && (rt == 1 <==> |sent| == 1 && sent[0].Session?)
    && (rt == 211051 <==> sent == [])
    && (rt !in {0, 1, 211051} <==> |sent| == 1 && sent[0].Refusal?)
  }

  predicate PcConsistent(pc: Pc) {
    pc.Closed? ==> Consistent(pc.rt, pc.sent)
  }

  /** Every way a step can end a request is consistent. */
  lemma StepConsistent(env: Env, w: World, ty: PostType, rq: Request, pc: Pc, db: int)
    requires PcOk(pc) && Active(pc)
    ensures PcConsistent(Step(env, w, ty, rq, pc, db).1)
  {
    hide Connect, GetInt, GetString, SetHset, Issue, Send, LoginCheck, DecText, ParseSession, CookieOf, FlagIp,
      GuardKey, NewRecord, FlagBlocks, MaxAllowed, SetVerdict, ExpireVerdict, Passed, Noted;
  }

  lemma {:induction false} SoloConsistent(env: Env, w: World, ty: PostType, rq: Request, pc: Pc)
    requires PcOk(pc) && PcConsistent(pc)
    ensures PcConsistent(Solo(env, w, ty, rq, pc).1)
    decreases Rank(pc)
  {
    hide Step, Rank, Consistent;
    if Active(pc) {
      StepDescends(env, w, ty, rq, pc, IpCountDb(ty));
      StepConsistent(env, w, ty, rq, pc, IpCountDb(ty));
      SoloConsistent(env, Step(env, w, ty, rq, pc, IpCountDb(ty)).0, ty, rq, Step(env, w, ty, rq, pc, IpCountDb(ty)).1);
    }
  }

  /** The handler returns 0 or 1 exactly when it sent one 200; any other return sent no
      200 and at most one 422. */
  lemma HandleConsistent(env: Env, w: World, ty: PostType, rq: Request)
    ensures Consistent(Handle(env, w, ty, rq).rt, Handle(env, w, ty, rq).sent)
  {
    hide Handle, Solo, Consistent;
    SoloConsistent(env, w, ty, rq, AtGate);
    SoloIsHandle(env, w, ty, rq);
  }

  ghost predicate AllConsistent(s: Sys) {
    forall i :: 0 <= i < |s.workers| ==> PcConsistent(s.workers[i].pc)
  }

  lemma MoveConsistent(env: Env, s: Sys, m: Move)
    requires SysOk(s) && AllConsistent(s)
    ensures AllConsistent(Do(env, s, m))
  {
    hide Step, Consistent;
    var s' := Do(env, s, m);
    if m.Go? && s' != s {
      var me := s.workers[m.i];
      StepConsistent(env, s.w.(link := me.link), me.ty, me.rq, me.pc, m.db);
    }
  }

  lemma {:induction false} RunConsistent(env: Env, s: Sys, moves: seq<Move>)
    requires SysOk(s) && AllConsistent(s)
    ensures AllConsistent(RunAll(env, s, moves))
    decreases |moves|
  {
    hide Do, AllConsistent;
    if moves != [] {
      MoveConsistent(env, s, moves[0]);
      RunConsistent(env, Do(env, s, moves[0]), moves[1..]);
    }
  }

  /** The same for every request that any interleaving of workers finishes. */
  lemma EveryOutcomeConsistent(env: Env, n: nat, moves: seq<Move>, i: nat)
    requires i < n && RunAll(env, Start(n), moves).workers[i].pc.Closed?
    ensures var pc := RunAll(env, Start(n), moves).workers[i].pc;
            Consistent(pc.rt, pc.sent)
  {
    hide RunAll, Consistent;
    RunConsistent(env, Start(n), moves);
  }

  // ----- User records -----

  /** The request has reached the record write: it will end with 0 or 211111. */
  predicate Writing(pc: Pc) {
    pc.AtHExpire? || (pc.Closed? && (pc.rt == 0 || pc.rt == 211111))
  }

  /** A step that changes any user record, in content or lifetime, puts its worker among
      the writers; and a writer stays one until it has reported 0 or 211111. */
  lemma RecordChangeIsReported(env: Env, w: World, ty: PostType, rq: Request, pc: Pc, db: int, d: int, k: Key)
    requires PcOk(pc) && Active(pc) && k.UserKey?
    ensures !Untouched(w, Step(env, w, ty, rq, pc, db).0, d, k) ==> Writing(Step(env, w, ty, rq, pc, db).1)
    ensures Writing(pc) ==> Writing(Step(env, w, ty, rq, pc, db).1)
  {
    hide Connect, GetInt, GetString, SetHset, Issue, Send, LoginCheck, DecText, ParseSession, CookieOf, FlagIp,
      GuardKey, NewRecord, FlagBlocks, MaxAllowed, SetVerdict, ExpireVerdict, At, Trace, Interleaving.BehindGate;
    if !pc.AtHSet? && !pc.AtHExpire? { OtherStepsSpareRecords(env, w, ty, rq, pc, db, d, k); }
  }

  lemma OtherStepsSpareRecords(env: Env, w: World, ty: PostType, rq: Request, pc: Pc, db: int, d: int, k: Key)
    requires PcOk(pc) && Active(pc) && k.UserKey? && !pc.AtHSet? && !pc.AtHExpire?
    ensures Untouched(w, Step(env, w, ty, rq, pc, db).0, d, k)
  {
    hide At, Trace, GetInt, GetString, SetHset, LoginCheck, DecText, ParseSession, CookieOf, FlagIp, GuardKey;
    match pc
    case AtGate =>
    case AtFlag(e) => GetIntFrame(env.tape, w, e, Exists(OkKey(ty, rq.ip)), d, k);
    case AtReconnect(e, _) =>
    case AtIncr(e, _) => GetIntFrame(env.tape, w, e, Incr(FailedKey(ty, rq.ip)), d, k);
    case AtExpire(e, _, n) =>
      GetIntFrame(env.tape, w, e, Expire(FailedKey(ty, rq.ip), SIGNUP_FAILED_TTL), d, k);
      var expire := GetInt(env.tape, w, e, Expire(FailedKey(ty, rq.ip), SIGNUP_FAILED_TTL));
      TraceSnoc(expire.w.log, GatePassed(expire.w.now, ty, rq.ip, n, expire.n == 1), d, k);
    case AtNewSession(user) =>
      SetHsetFrame(env.tape, w, db, SESS_TTL, SetEx(SessKey(ty, user, rq.sesv), rq.sess, SESS_TTL), d, k);
    case AtNewSalt(user) =>
      GetStringFrame(env.tape, w, SALT_LOGIN_DB, SALT_LEN, HGet(UserKey(Login, user), "salt"), d, k);
    case AtLookup(p) =>
      var get := Get(SessKey(ty, p.user, p.salt));
      GetStringFrame(env.tape, w, db, SALT_LEN, get, d, k);
      var saved := GetString(env.tape, w, db, SALT_LEN, get);
      TraceSnoc(saved.w.log, SessRead(saved.w.now, ty, p.user, p.salt, saved.s), d, k);
    case AtGuard(p) => GetIntFrame(env.tape, w, SALT_LOGIN_DB, Exists(GuardKey(env.form, ty, p.user)), d, k);
    case AtSetFlag(p) =>
      SetHsetFrame(env.tape, w, db, SIGNUP_OK_TTL,
                   SetEx(OkKey(Signup, FlagIp(env.form, rq)), "1", SIGNUP_OK_TTL), d, k);
    case AtHash(p) =>
      GetStringFrame(env.tape, w, SALT_LOGIN_DB, PASSWD_LEN, HGet(UserKey(Login, p.user), "hash"), d, k);
    case AtSalt(p, _) =>
      GetStringFrame(env.tape, w, SALT_LOGIN_DB, SALT_LEN, HGet(UserKey(Login, p.user), "salt"), d, k);
  }

  lemma {:induction false} SoloReports(env: Env, w: World, ty: PostType, rq: Request, pc: Pc, d: int, k: Key)
    requires PcOk(pc) && k.UserKey?
    ensures var (w', pc') := Solo(env, w, ty, rq, pc);
            Writing(pc) || !Untouched(w, w', d, k) ==> Writing(pc')
    decreases Rank(pc)
  {
    hide Step, Rank, At, Trace;
    if Active(pc) {
      var (w1, pc1) := Step(env, w, ty, rq, pc, IpCountDb(ty));
      StepDescends(env, w, ty, rq, pc, IpCountDb(ty));
      RecordChangeIsReported(env, w, ty, rq, pc, IpCountDb(ty), d, k);
      SoloReports(env, w1, ty, rq, pc1, d, k);
    }
  }

  /** User records change only in calls of the handler that return 0 or 211111. */
  lemma RecordsChangeOnlyWhenReported(env: Env, w: World, ty: PostType, rq: Request, d: int, k: Key)
    requires k.UserKey?
    requires Handle(env, w, ty, rq).rt != 0 && Handle(env, w, ty, rq).rt != 211111
    ensures Untouched(w, Handle(env, w, ty, rq).w, d, k)
  {
    hide Handle, Solo, At, Trace;
    SoloReports(env, w, ty, rq, AtGate, d, k);
    SoloIsHandle(env, w, ty, rq);
  }
}
