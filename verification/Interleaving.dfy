/** Several workers on one store, each advancing one command at a time in any order
    (src/http_server_main_loop_handler.c and what it calls, run by the threads of
    src/main.c). */
module Interleaving {
  import opened Common
  import opened RedisStore
  import opened HttpText
  import opened HttpParser
  import opened Hashing
  import opened Cookies
  import opened PostPath
  import opened Protocol

  /** Where a worker stands: in front of which command. `db` is the counter database
      it was handed at the call of the gate. */
  datatype Pc =
    | Idle
    | AtGate
    | AtFlag(db: int)
    | AtReconnect(db: int, flags: int)
    | AtIncr(db: int, flags: int)
    | AtExpire(db: int, flags: int, n: int)
    | AtNewSession(user: string)
    | AtNewSalt(user: string)
    | AtLookup(p: Parsed)
    | AtGuard(p: Parsed)
    | AtSetFlag(p: Parsed)
    | AtHSet(p: Parsed)
    | AtHExpire(p: Parsed)
    | AtHash(p: Parsed)
    | AtSalt(p: Parsed, hash: string)
    | Closed(rt: int, sent: seq<Response>)

  predicate Active(pc: Pc) {
    !pc.Idle? && !pc.Closed?
  }

  /** A pc that carries a submission really carries one. */
  predicate PcOk(pc: Pc) {
    pc.AtLookup? || pc.AtGuard? || pc.AtSetFlag? || pc.AtHSet? || pc.AtHExpire? || pc.AtHash? || pc.AtSalt? ==>
        pc.p.Submit?
  }

  function GateClosed(rt: int): Pc {
    Closed(211021, [Refusal("22:" + DecText(rt))])
  }

  /** Behind the gate: everything up to the next command is local. */
  function BehindGate(ty: PostType, rq: Request): (pc: Pc)
    ensures PcOk(pc) && !pc.Idle? && Rank(pc) <= 10
  {
    if HeadEnd(rq.buffer).None? then Closed(211031, [Refusal("24")])
    else match ParseSession(ty, rq.json)
      case Rejected(_) => Closed(211041, [Refusal("30:1")])
      case NewSession(user) => AtNewSession(user)
      case Submit(user, passwd, salt) => AtLookup(Submit(user, passwd, salt))
  }

  function AfterExpire(w: World, ty: PostType, rq: Request, flags: int, n: int, expire: Called): (r: (World, Pc))
    ensures PcOk(r.1) && !r.1.Idle? && Rank(r.1) <= 10
  {
    if expire.rt != 0 then (expire.w, GateClosed(expire.rt))
    else if FlagBlocks(ty, flags) then (expire.w, GateClosed(111011))
    else if n > MaxAllowed(ty) then (expire.w, GateClosed(111019))
    else (Passed(expire.w, ty, rq.ip, n, expire.n == 1), BehindGate(ty, rq))
  }

  function CookiePc(cookie: CookieResult, p: Parsed, saved: string): (pc: Pc)
    requires p.Submit?
    ensures PcOk(pc) && !pc.Idle? && Rank(pc) <= 7
  {
    match cookie
    case Missing(code) => Closed(211071, [Refusal("38:" + DecText(code))])
    case Found(v) => if v != saved then Closed(211081, [Refusal("39")]) else AtGuard(p)
  }

  function AfterLookup(ty: PostType, rq: Request, p: Parsed, saved: Fetched): (r: (World, Pc))
    requires p.Submit?
    ensures PcOk(r.1) && !r.1.Idle? && Rank(r.1) <= 7
  {
    if saved.rt != 0 then (saved.w, Closed(211061, [Refusal("34:" + DecText(saved.rt))]))
    else (Noted(saved.w, ty, p.user, p.salt, saved.s), CookiePc(CookieOf(ty, rq), p, saved.s))
  }

  function AfterGuard(ty: PostType, p: Parsed, found: Called): (pc: Pc)
    ensures Rank(pc) <= 6
  {
    if found.rt != 0 then Closed(211091, [Refusal("24:" + DecText(found.rt) + ":-1")])
    else if ty == Signup then
      if found.n == 1 then Closed(211100, [Refusal("29:211100")]) else AtSetFlag(p)
    else if found.n != 1 then Closed(211120, [Refusal("29:211120")])
    else AtHash(p)
  }

  function AfterSalt(env: Env, rq: Request, p: Parsed, hash: string, salt: Fetched): Pc
    requires p.Submit?
  {
    if salt.rt != 0 then Closed(211140, [Refusal("29:211140")])
    else
      var rt := LoginCheck(env.hash, rq.argonOk, p.user, p.salt, hash, p.passwd);
      if rt != 0 then Closed(211121, [Refusal("54:" + DecText(rt) + ":211121")])
      else Closed(0, [Welcome])
  }

  /** One command of one worker. `db` is what the shared counter index reads at that moment. */
  function Step(env: Env, w: World, ty: PostType, rq: Request, pc: Pc, db: int): (r: (World, Pc))
    requires PcOk(pc)
    ensures PcOk(r.1)
  {
    match pc
    case Idle => (w, pc)
    case Closed(_, _) => (w, pc)
    case AtGate =>
      var (w1, up) := Connect(env.tape, w, db);
      (w1, if up then AtFlag(db) else GateClosed(111001))
    case AtFlag(d) =>
      var flag := GetInt(env.tape, w, d, Exists(OkKey(ty, rq.ip)));
      (flag.w, if flag.rt == 0 then AtReconnect(d, flag.n) else GateClosed(flag.rt))
    case AtReconnect(d, flags) =>
      var (w1, up) := Connect(env.tape, w, d);
      (w1, if up then AtIncr(d, flags) else GateClosed(131001))
    case AtIncr(d, flags) =>
      var incr := GetInt(env.tape, w, d, Incr(FailedKey(ty, rq.ip)));
      (incr.w, if incr.rt == 0 then AtExpire(d, flags, incr.n) else GateClosed(incr.rt))
    case AtExpire(d, flags, n) =>
      AfterExpire(w, ty, rq, flags, n, GetInt(env.tape, w, d, Expire(FailedKey(ty, rq.ip), SIGNUP_FAILED_TTL)))
    case AtNewSession(user) =>
      var put := SetHset(env.tape, w, db, SESS_TTL, SetEx(SessKey(ty, user, rq.sesv), rq.sess, SESS_TTL));
      (put.w,
       if put.rt != 0 then Closed(211051, [])
       else if ty == Login then AtNewSalt(user)
       else Closed(1, [Session(ty, rq.sess, rq.sesv, None)]))
    case AtNewSalt(user) =>
      var salt := GetString(env.tape, w, SALT_LOGIN_DB, SALT_LEN, HGet(UserKey(Login, user), "salt"));
      (salt.w,
       if salt.rt != 0 then Closed(211051, []) else Closed(1, [Session(ty, rq.sess, rq.sesv, Some(salt.s))]))
    case AtLookup(p) =>
      AfterLookup(ty, rq, p, GetString(env.tape, w, db, SALT_LEN, Get(SessKey(ty, p.user, p.salt))))
    case AtGuard(p) =>
      var found := GetInt(env.tape, w, SALT_LOGIN_DB, Exists(GuardKey(env.form, ty, p.user)));
      (found.w, AfterGuard(ty, p, found))
    case AtSetFlag(p) =>
      var flag := SetHset(env.tape, w, db, SIGNUP_OK_TTL,
                          SetEx(OkKey(Signup, FlagIp(env.form, rq)), "1", SIGNUP_OK_TTL));
      (flag.w, if flag.rt != 0 then Closed(211101, [Refusal("34:" + DecText(flag.rt))]) else AtHSet(p))
    case AtHSet(p) =>
      var (w1, reply) := Issue(env.tape, w, SALT_LOGIN_DB, HSet(UserKey(Login, p.user), NewRecord(p.passwd, p.salt)));
      (w1,
       if SetVerdict(reply) != 0 then Closed(211111, [Refusal("44:" + DecText(SetVerdict(reply)))]) else AtHExpire(p))
    case AtHExpire(p) =>
      var (w1, reply) := Send(env.tape, w, SALT_LOGIN_DB, Expire(UserKey(Login, p.user), NEW_USER_TTL));
      (w1,
       if ExpireVerdict(reply) != 0 then Closed(211111, [Refusal("44:" + DecText(ExpireVerdict(reply)))])
       else Closed(0, [Welcome]))
    case AtHash(p) =>
      var hash := GetString(env.tape, w, SALT_LOGIN_DB, PASSWD_LEN, HGet(UserKey(Login, p.user), "hash"));
      (hash.w, if hash.rt != 0 then Closed(211130, [Refusal("29:211130")]) else AtSalt(p, hash.s))
    case AtSalt(p, hash) =>
      var salt := GetString(env.tape, w, SALT_LOGIN_DB, SALT_LEN, HGet(UserKey(Login, p.user), "salt"));
      (salt.w, AfterSalt(env, rq, p, hash, salt))
  }

  // ----- One worker alone is the request handler -----

  function Rank(pc: Pc): nat {
    match pc
    case Idle => 0
    case Closed(_, _) => 0
    case AtGate => 15
    case AtFlag(_) => 14
    case AtReconnect(_, _) => 13
    case AtIncr(_, _) => 12
    case AtExpire(_, _, _) => 11
    case AtNewSession(_) => 10
    case AtNewSalt(_) => 9
    case AtLookup(_) => 8
    case AtGuard(_) => 7
    case AtSetFlag(_) => 6
    case AtHSet(_) => 5
    case AtHExpire(_) => 4
    case AtHash(_) => 3
    case AtSalt(_, _) => 2
  }

  /** Every command brings its worker closer to the end of the request. */
  lemma StepDescends(env: Env, w: World, ty: PostType, rq: Request, pc: Pc, db: int)
    requires PcOk(pc) && Active(pc)
    ensures Rank(Step(env, w, ty, rq, pc, db).1) < Rank(pc)
  {
    hide Connect, GetInt, GetString, SetHset, Issue, Send, AfterExpire, AfterLookup, AfterGuard, LoginCheck, DecText,
      SetVerdict, ExpireVerdict, FlagIp, GuardKey, NewRecord;
  }

  /** Runs one worker to the end of its request without interruption. */
  function Solo(env: Env, w: World, ty: PostType, rq: Request, pc: Pc): (World, Pc)
    requires PcOk(pc)
    decreases Rank(pc)
  {
    if !Active(pc) then (w, pc)
    else
      StepDescends(env, w, ty, rq, pc, IpCountDb(ty));
      var (w', pc') := Step(env, w, ty, rq, pc, IpCountDb(ty));
      Solo(env, w', ty, rq, pc')
  }

  function AsPair(h: Handled): (World, Pc) {
    (h.w, Closed(h.rt, h.sent))
  }

  /** One unfolding of Solo. */
  lemma SoloStep(env: Env, w: World, ty: PostType, rq: Request, pc: Pc) returns (w': World, pc': Pc)
    requires PcOk(pc) && Active(pc)
    ensures (w', pc') == Step(env, w, ty, rq, pc, IpCountDb(ty)) && PcOk(pc')
    ensures Solo(env, w, ty, rq, pc) == Solo(env, w', ty, rq, pc')
    ensures !Active(pc') ==> Solo(env, w, ty, rq, pc) == (w', pc')
  {
    hide Step;
    w', pc' := Step(env, w, ty, rq, pc, IpCountDb(ty)).0, Step(env, w, ty, rq, pc, IpCountDb(ty)).1;
  }

  lemma SoloSignupTail(env: Env, w: World, rq: Request, p: Parsed)
    requires p.Submit?
    ensures Solo(env, w, Signup, rq, AtSetFlag(p)) == AsPair(SignupTail(env, w, rq, p.user, p.passwd, p.salt))
  {
    hide Solo, SetVerdict, ExpireVerdict, Issue, Send, FlagIp, DecText, NewRecord;
    var w1, pc1 := SoloStep(env, w, Signup, rq, AtSetFlag(p));
    if Active(pc1) {
      var w2, pc2 := SoloStep(env, w1, Signup, rq, pc1);
      if Active(pc2) {
        var w3, pc3 := SoloStep(env, w2, Signup, rq, pc2);
      }
    }
  }

  lemma SoloLoginTail(env: Env, w: World, ty: PostType, rq: Request, p: Parsed)
    requires p.Submit?
    ensures Solo(env, w, ty, rq, AtHash(p)) == AsPair(LoginTail(env, w, rq, p.user, p.passwd, p.salt))
  {
    hide Solo, GetString, LoginCheck;
    var w1, pc1 := SoloStep(env, w, ty, rq, AtHash(p));
    if Active(pc1) {
      var w2, pc2 := SoloStep(env, w1, ty, rq, pc1);
    }
  }

  lemma SoloSubmit(env: Env, w: World, ty: PostType, rq: Request, p: Parsed)
    requires p.Submit?
    ensures Solo(env, w, ty, rq, AtLookup(p)) == AsPair(HandleSubmit(env, w, ty, rq, p.user, p.passwd, p.salt))
  {
    hide Solo, GetString, GetInt, SignupTail, LoginTail, CookieOf;
    var w1, pc1 := SoloStep(env, w, ty, rq, AtLookup(p));
    if Active(pc1) {
      var w2, pc2 := SoloStep(env, w1, ty, rq, pc1);
      if pc2.AtSetFlag? { SoloSignupTail(env, w2, rq, p); }
      else if pc2.AtHash? { SoloLoginTail(env, w2, ty, rq, p); }
    }
  }

  lemma SoloNewSession(env: Env, w: World, ty: PostType, rq: Request, user: string)
    ensures Solo(env, w, ty, rq, AtNewSession(user)) == AsPair(IssueSession(env, w, ty, rq, user))
  {
    hide Solo, GetString, SetHset;
    var w1, pc1 := SoloStep(env, w, ty, rq, AtNewSession(user));
    if Active(pc1) {
      var w2, pc2 := SoloStep(env, w1, ty, rq, pc1);
    }
  }

  lemma SoloBehindGate(env: Env, w: World, ty: PostType, rq: Request)
    ensures Solo(env, w, ty, rq, BehindGate(ty, rq)) == AsPair(AfterGate(env, w, ty, rq))
  {
    hide Step, HandleSubmit, IssueSession, ParseSession, HeadEnd;
    var pc := BehindGate(ty, rq);
    if pc.AtNewSession? { SoloNewSession(env, w, ty, rq, pc.user); }
    else if pc.AtLookup? { SoloSubmit(env, w, ty, rq, pc.p); }
  }

  /** The counting half of the gate and what lies behind it. */
  lemma SoloCount(env: Env, w: World, ty: PostType, rq: Request, flags: int)
    ensures var count := Increment(env.tape, w, IpCountDb(ty), SIGNUP_FAILED_TTL, FailedKey(ty, rq.ip));
            Solo(env, w, ty, rq, AtReconnect(IpCountDb(ty), flags))
            == if count.rt != 0 then (count.w, GateClosed(count.rt))
               else if FlagBlocks(ty, flags) then (count.w, GateClosed(111011))
               else if count.n > MaxAllowed(ty) then (count.w, GateClosed(111019))
               else AsPair(AfterGate(env, Passed(count.w, ty, rq.ip, count.n, count.armed), ty, rq))
  {
    hide Solo, AfterGate, BehindGate, GetInt, Connect, FlagBlocks, DecText, Passed;
    var w1, pc1 := SoloStep(env, w, ty, rq, AtReconnect(IpCountDb(ty), flags));
    if Active(pc1) {
      var w2, pc2 := SoloStep(env, w1, ty, rq, pc1);
      if Active(pc2) {
        var w3, pc3 := SoloStep(env, w2, ty, rq, pc2);
        SoloBehindGate(env, w3, ty, rq);
      }
    }
  }

  /** Running one worker alone is exactly the request handler. */
  lemma SoloIsHandle(env: Env, w: World, ty: PostType, rq: Request)
    ensures Solo(env, w, ty, rq, AtGate) == AsPair(Handle(env, w, ty, rq))
  {
    hide Solo, AfterGate, GetInt, Increment, Connect, FlagBlocks;
    var w1, pc1 := SoloStep(env, w, ty, rq, AtGate);
    if Active(pc1) {
      var w2, pc2 := SoloStep(env, w1, ty, rq, pc1);
      if Active(pc2) { SoloCount(env, w2, ty, rq, pc2.flags); }
    }
  }

  // ----- Many workers -----

  /** `readAt` is the time of the worker's last session lookup, `guardAt` the length of the
      history at its last record check. */
  datatype Worker = Worker(ty: PostType, rq: Request, pc: Pc, link: Link, readAt: int, guardAt: nat)

  datatype Sys = Sys(w: World, workers: seq<Worker>)

  /** Worker i receives a request, or worker i performs its next command while the shared
      counter index reads `db`. */
  datatype Move = Begin(i: nat, rq: Request) | Go(i: nat, db: int)

  predicate IsIpCountDb(db: int) {
    db == IpCountDb(Signup) || db == IpCountDb(Login) || db == IpCountDb(Admin)
  }

  predicate SysOk(s: Sys) {
    forall i :: 0 <= i < |s.workers| ==> PcOk(s.workers[i].pc)
  }

  /** One command of this worker, on its own connection. */
  function Advance(env: Env, w: World, me: Worker, db: int): (r: (World, Worker))
    requires PcOk(me.pc)
    ensures PcOk(r.1.pc)
  {
    var (w', pc') := Step(env, w.(link := me.link), me.ty, me.rq, me.pc, db);
    (w', me.(pc := pc', link := w'.link,
             readAt := if me.pc.AtLookup? then w'.now else me.readAt,
             guardAt := if me.pc.AtGuard? then |w'.log| else me.guardAt))
  }

  function Moved(env: Env, s: Sys, i: nat, db: int): (s': Sys)
    requires SysOk(s) && i < |s.workers|
    ensures SysOk(s') && |s'.workers| == |s.workers|
  {
    var (w', me') := Advance(env, s.w, s.workers[i], db);
    Sys(w', s.workers[i := me'])
  }

  function Do(env: Env, s: Sys, m: Move): (s': Sys)
    requires SysOk(s)
    ensures SysOk(s') && |s'.workers| == |s.workers|
  {
    match m
    case Begin(i, rq) =>
      if i < |s.workers| && !Active(s.workers[i].pc) && Classify(rq.buffer).Accepted? then
        s.(workers := s.workers[i := s.workers[i].(ty := Classify(rq.buffer).ty, rq := rq, pc := AtGate)])
      else s
    case Go(i, db) =>
      if i < |s.workers| && Active(s.workers[i].pc) && IsIpCountDb(db) then Moved(env, s, i, db) else s
  }

  function RunAll(env: Env, s: Sys, moves: seq<Move>): (s': Sys)
    requires SysOk(s)
    ensures SysOk(s') && |s'.workers| == |s.workers|
    decreases |moves|
  {
    if moves == [] then s else RunAll(env, Do(env, s, moves[0]), moves[1..])
  }

  const NO_REQUEST := Request("", "", "", None, "", "", false)

  /** n idle workers on an empty store. */
  function Start(n: nat): (s: Sys)
    ensures SysOk(s)
  {
    Sys(FRESH, seq(n, _ => Worker(Signup, NO_REQUEST, Idle, Link(false, -1), 0, 0)))
  }

  // ----- A run of one worker is one of these interleavings -----

  lemma {:induction false} RunAllSplits(env: Env, s: Sys, first: seq<Move>, then_: seq<Move>)
    requires SysOk(s)
    ensures RunAll(env, s, first + then_) == RunAll(env, RunAll(env, s, first), then_)
    decreases |first|
  {
    hide Do;
    if first == [] {
      assert first + then_ == then_;
    } else {
      assert (first + then_)[1..] == first[1..] + then_;
      RunAllSplits(env, Do(env, s, first[0]), first[1..], then_);
    }
  }

  /** The world with the worker's own connection. */
  function SeenBy(s: Sys, i: nat): World
    requires i < |s.workers|
  {
    s.w.(link := s.workers[i].link)
  }

  /** At most k commands of one worker without interruption. */
  function Steps(env: Env, w: World, ty: PostType, rq: Request, pc: Pc, k: nat): (r: (World, Pc))
    requires PcOk(pc)
    ensures PcOk(r.1)
    decreases k
  {
    if k == 0 || !Active(pc) then (w, pc)
    else
      var (w', pc') := Step(env, w, ty, rq, pc, IpCountDb(ty));
      Steps(env, w', ty, rq, pc', k - 1)
  }

  lemma {:induction false} SoloIsSteps(env: Env, w: World, ty: PostType, rq: Request, pc: Pc, k: nat)
    requires PcOk(pc)
    ensures var (w', pc') := Steps(env, w, ty, rq, pc, k);
            && Solo(env, w', ty, rq, pc') == Solo(env, w, ty, rq, pc)
            && (Rank(pc) <= k ==> (w', pc') == Solo(env, w, ty, rq, pc))
    decreases k
  {
    hide Step, Rank;
    assert Rank(pc) == 0 ==> !Active(pc) by { RankOfActive(pc); }
    if k > 0 && Active(pc) {
      StepDescends(env, w, ty, rq, pc, IpCountDb(ty));
      var (w', pc') := Step(env, w, ty, rq, pc, IpCountDb(ty));
      SoloIsSteps(env, w', ty, rq, pc', k - 1);
    }
  }

  lemma RankOfActive(pc: Pc)
    ensures Rank(pc) <= 15 && (Active(pc) ==> Rank(pc) > 0)
  {
  }

  function Goes(i: nat, ty: PostType, k: nat): seq<Move> {
    if k == 0 then [] else [Go(i, IpCountDb(ty))] + Goes(i, ty, k - 1)
  }

  /** Worker i alone has moved: its request is the same, the other workers stand still. */
  predicate OnlyMoved(s: Sys, s': Sys, i: nat)
    requires i < |s.workers|
  {
    && |s'.workers| == |s.workers| && s'.workers == s.workers[i := s'.workers[i]]
    && s'.workers[i].ty == s.workers[i].ty && s'.workers[i].rq == s.workers[i].rq
    && (s.workers[i].link == s.w.link ==> s'.workers[i].link == s'.w.link)
  }

  lemma GoAmong(env: Env, s: Sys, i: nat)
    requires SysOk(s) && i < |s.workers| && Active(s.workers[i].pc)
    ensures var me := s.workers[i];
            var s' := Do(env, s, Go(i, IpCountDb(me.ty)));
            && OnlyMoved(s, s', i)
            && (SeenBy(s', i), s'.workers[i].pc) == Step(env, SeenBy(s, i), me.ty, me.rq, me.pc, IpCountDb(me.ty))
  {
    hide Step;
    var s' := Do(env, s, Go(i, IpCountDb(s.workers[i].ty)));
    assert s'.w.(link := s'.workers[i].link) == s'.w;
  }

  /** Uninterrupted moves of worker i are its steps. */
  lemma {:induction false} GoesAreSteps(env: Env, s: Sys, i: nat, k: nat)
    requires SysOk(s) && i < |s.workers|
    ensures var me := s.workers[i];
            var s' := RunAll(env, s, Goes(i, me.ty, k));
            && OnlyMoved(s, s', i)
            && (SeenBy(s', i), s'.workers[i].pc) == Steps(env, SeenBy(s, i), me.ty, me.rq, me.pc, k)
    decreases k
  {
    hide Step, Do;
    var me := s.workers[i];
    if k > 0 {
      var go := Go(i, IpCountDb(me.ty));
      assert ([go] + Goes(i, me.ty, k - 1))[1..] == Goes(i, me.ty, k - 1);
      if Active(me.pc) { GoAmong(env, s, i); } else { GoIdle(env, s, go); }
      GoesAreSteps(env, Do(env, s, go), i, k - 1);
    }
  }

  lemma GoIdle(env: Env, s: Sys, m: Move)
    requires SysOk(s) && m.Go? && m.i < |s.workers| && !Active(s.workers[m.i].pc)
    ensures Do(env, s, m) == s
  {
  }

  /** The moves of worker i that serves a request: it takes 15 commands at most. */
  function ServeMoves(i: nat, rq: Request): seq<Move> {
    if Classify(rq.buffer).Accepted? then [Begin(i, rq)] + Goes(i, Classify(rq.buffer).ty, 15) else []
  }

  function RunMoves(rqs: seq<Request>): seq<Move> {
    if rqs == [] then [] else ServeMoves(0, rqs[0]) + RunMoves(rqs[1..])
  }

  /** A request that worker i serves without interruption. */
  lemma ServeIsRunAll(env: Env, s: Sys, i: nat, rq: Request)
    requires SysOk(s) && i < |s.workers| && !Active(s.workers[i].pc)
    ensures var s' := RunAll(env, s, ServeMoves(i, rq));
            && !Active(s'.workers[i].pc) && SeenBy(s', i) == Serve(env, SeenBy(s, i), rq).w
            && s'.workers == s.workers[i := s'.workers[i]]
            && (s.workers[i].link == s.w.link ==> s'.workers[i].link == s'.w.link)
            && (Classify(rq.buffer).Accepted? ==>
                  && s'.workers[i].rq == rq
                  && s'.workers[i].pc == Closed(Serve(env, SeenBy(s, i), rq).rt, Serve(env, SeenBy(s, i), rq).sent))
  {
    hide Handle, Classify, Step, Steps, Solo, Goes, Rank;
    if Classify(rq.buffer).Accepted? {
      var ty := Classify(rq.buffer).ty;
      var s1 := Do(env, s, Begin(i, rq));
      assert ([Begin(i, rq)] + Goes(i, ty, 15))[1..] == Goes(i, ty, 15);
      GoesAreSteps(env, s1, i, 15);
      RankOfActive(AtGate);
      SoloIsSteps(env, SeenBy(s, i), ty, rq, AtGate, 15);
      SoloIsHandle(env, SeenBy(s, i), ty, rq);
    }
  }

  lemma {:induction false} RunIsRunAll(env: Env, s: Sys, rqs: seq<Request>)
    requires SysOk(s) && |s.workers| == 1 && s.workers[0].link == s.w.link && !Active(s.workers[0].pc)
    ensures RunAll(env, s, RunMoves(rqs)).w == Run(env, s.w, rqs)
    decreases |rqs|
  {
    hide Serve, ServeMoves, RunAll, Classify;
    assert SeenBy(s, 0) == s.w;
    if rqs == [] {
      NoMoves(env, s);
    } else {
      ServeIsRunAll(env, s, 0, rqs[0]);
      var s1 := RunAll(env, s, ServeMoves(0, rqs[0]));
      assert SeenBy(s1, 0) == s1.w;
      RunIsRunAll(env, s1, rqs[1..]);
      RunAllSplits(env, s, ServeMoves(0, rqs[0]), RunMoves(rqs[1..]));
    }
  }

  lemma NoMoves(env: Env, s: Sys)
    requires SysOk(s)
    ensures RunAll(env, s, []) == s
  {
  }

  /** Serving requests one after the other is one of the interleavings, that of a single
      worker; so what holds in every reachable state holds after every run. */
  lemma RunIsReachable(env: Env, rqs: seq<Request>)
    ensures RunAll(env, Start(1), RunMoves(rqs)).w == Run(env, FRESH, rqs)
  {
    hide RunAll, RunMoves, Run;
    RunIsRunAll(env, Start(1), rqs);
  }
}
