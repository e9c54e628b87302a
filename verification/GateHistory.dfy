/** The per-IP gate against its history: bursts, silence, and the bound on passes in
    any window (src/redis_check_ip.c, src/redis_increment.c). */
module GateHistory {
  import opened Common
  import opened RedisStore
  import opened HttpParser
  import opened PostPath
  import opened Protocol
  import opened History

  // 3610 s and 3600 s in milliseconds.
  const WINDOW := 3_610_000
  const FLAG_LIFE := 3_600_000

  // ----- Bursts -----

  /** How many calls the current burst has, and when its last call was. */
  datatype Burst = NoCall | Calls(n: nat, last: int)

  /** One more call at time t: it continues the burst when it comes less than 3610 s
      after the last call, and starts a new one otherwise. */
  function Extend(b: Burst, t: int): Burst {
    if b.Calls? && t < b.last + WINDOW then Calls(b.n + 1, t) else Calls(1, t)
  }

  /** The burst that a counter's history ends with: every executed INCR is a call. */
  function BurstOf(trace: seq<Event>): Burst {
    if trace == [] then NoCall
    else
      var e := trace[|trace| - 1];
      var earlier := BurstOf(trace[..|trace| - 1]);
      if e.Ran? && e.cmd.Incr? then Extend(earlier, e.at) else earlier
  }

  function CounterTrace(w: World, ty: PostType, ip: string): seq<Event> {
    Trace(w.log, IpCountDb(ty), FailedKey(ty, ip))
  }

  lemma BurstSnoc(trace: seq<Event>, e: Event)
    ensures BurstOf(trace + [e]) == if e.Ran? && e.cmd.Incr? then Extend(BurstOf(trace), e.at) else BurstOf(trace)
  {
    assert (trace + [e])[..|trace|] == trace;
  }

  /** The stored counter is the burst, and lives 3610 s from its last call. */
  ghost predicate CounterOk(w: World, ty: PostType, ip: string) {
    match BurstOf(CounterTrace(w, ty, ip))
    case NoCall => At(w.store, IpCountDb(ty), FailedKey(ty, ip)).None?
    case Calls(n, last) =>
      && At(w.store, IpCountDb(ty), FailedKey(ty, ip)) == Some(Entry(Count(n), Some(last + WINDOW)))
      && last <= w.now
  }

  /** The ticks of one gate call go well, and its EXPIRE falls in the INCR's instant. */
  ghost predicate PromptGate(tape: Tape, w: World) {
    SmoothFor(tape, w.pos, 5) && tape(w.pos + 4).wait == 0
  }

  /** When the gate looks for a signup flag. */
  function LookTime(tape: Tape, w: World): int {
    w.now + tape(w.pos).wait + tape(w.pos + 1).wait
  }

  /** When the gate counts the call. */
  function CallTime(tape: Tape, w: World): int {
    LookTime(tape, w) + tape(w.pos + 2).wait + tape(w.pos + 3).wait
  }

  /** The gate's verdict as the rules state it. */
  function GateRule(ty: PostType, flagged: bool, b: Burst): int {
    if ty == Signup && flagged then 111011
    else if b.Calls? && b.n > (match ty case Signup => 5 case Login => 10 case Admin => 2) then 111019
    else 0
  }

  /** A counter that is in step with its history: INCR extends the burst. */
  lemma CallExtends(tape: Tape, w: World, ty: PostType, ip: string)
    requires IpText(ip) && CounterOk(w, ty, ip) && SmoothFor(tape, w.pos, 3) && tape(w.pos + 2).wait == 0
    ensures var count := Increment(tape, w, IpCountDb(ty), SIGNUP_FAILED_TTL, FailedKey(ty, ip));
            var b := Extend(BurstOf(CounterTrace(w, ty, ip)), w.now + tape(w.pos).wait + tape(w.pos + 1).wait);
            && count.rt == 0 && count.n == b.n && count.armed
            && CounterOk(count.w, ty, ip) && BurstOf(CounterTrace(count.w, ty, ip)) == b
            && count.w.now == b.last && count.w.pos == w.pos + 3
  {
    hide Trace, BurstOf;
    var db, k := IpCountDb(ty), FailedKey(ty, ip);
    var (w1, _) := Connect(tape, w, db);
    var (w2, _) := Issue(tape, w1, db, Incr(k));
    var (w3, _) := Issue(tape, w2, db, Expire(k, SIGNUP_FAILED_TTL));
    assert Smooth(tape(w.pos)) && Smooth(tape(w.pos + 1)) && Smooth(tape(w.pos + 2));
    TraceSnoc(w1.log, Ran(w2.now, db, Incr(k)), db, k);
    BurstSnoc(Trace(w1.log, db, k), Ran(w2.now, db, Incr(k)));
    TraceSnoc(w2.log, Ran(w3.now, db, Expire(k, SIGNUP_FAILED_TTL)), db, k);
    BurstSnoc(Trace(w2.log, db, k), Ran(w3.now, db, Expire(k, SIGNUP_FAILED_TTL)));
  }

  lemma FlagLookup(tape: Tape, w: World, ty: PostType, ip: string) returns (flag: Called)
    requires IpText(ip) && SmoothFor(tape, w.pos, 5)
    ensures flag == GetInt(tape, Connect(tape, w, IpCountDb(ty)).0, IpCountDb(ty), Exists(OkKey(ty, ip)))
    ensures Connect(tape, w, IpCountDb(ty)).1 && flag.rt == 0
    ensures flag.n == if Live(w.store, IpCountDb(ty), OkKey(ty, ip), LookTime(tape, w)) then 1 else 0
    ensures flag.w.store == w.store && flag.w.now == LookTime(tape, w) && flag.w.pos == w.pos + 2
    ensures CounterTrace(flag.w, ty, ip) == CounterTrace(w, ty, ip)
    ensures CounterOk(w, ty, ip) ==> CounterOk(flag.w, ty, ip)
    ensures SmoothFor(tape, flag.w.pos, 3)
  {
    var db := IpCountDb(ty);
    assert Smooth(tape(w.pos)) && Smooth(tape(w.pos + 1));
    var (w1, _) := Connect(tape, w, db);
    flag := GetInt(tape, w1, db, Exists(OkKey(ty, ip)));
    StepFrame(w1, flag.w, db, Exists(OkKey(ty, ip)), db, FailedKey(ty, ip));
  }

  /** One gate call, from a counter in step with its history: the verdict is the rule
      applied to the burst that this call extends, and the counter stays in step. */
  lemma GateFollowsRule(tape: Tape, w: World, ty: PostType, ip: string)
    requires IpText(ip) && CounterOk(w, ty, ip) && PromptGate(tape, w)
    ensures var gate := CheckIp(tape, w, IpCountDb(ty), ty, ip);
            var b := Extend(BurstOf(CounterTrace(w, ty, ip)), CallTime(tape, w));
            && CounterOk(gate.w, ty, ip)
            && BurstOf(CounterTrace(gate.w, ty, ip)) == b
            && gate.rt == GateRule(ty, Live(w.store, IpCountDb(ty), OkKey(ty, ip), LookTime(tape, w)), b)
  {
    hide Increment, GetInt, Connect, Live, CounterOk;
    var db := IpCountDb(ty);
    var flag := FlagLookup(tape, w, ty, ip);
    CallExtends(tape, flag.w, ty, ip);
    var count := Increment(tape, flag.w, db, SIGNUP_FAILED_TTL, FailedKey(ty, ip));
    PassKeepsCounter(count.w, ty, ip, count.n, count.armed);
  }

  /** An address whose text is not one plain word never passes, and its call changes nothing. */
  lemma GarbledNeverPasses(tape: Tape, w: World, db: int, ty: PostType, ip: string)
    requires !IpText(ip)
    ensures var gate := CheckIp(tape, w, db, ty, ip);
            gate.rt != 0 && gate.w.store == w.store && gate.w.log == w.log && w.now <= gate.w.now
  {
    hide Effect, TrueReply, IpText;
  }

  lemma PassKeepsCounter(w: World, ty: PostType, ip: string, n: int, armed: bool)
    requires CounterOk(w, ty, ip)
    ensures CounterOk(Passed(w, ty, ip, n, armed), ty, ip)
    ensures BurstOf(CounterTrace(Passed(w, ty, ip, n, armed), ty, ip)) == BurstOf(CounterTrace(w, ty, ip))
  {
    var pass := GatePassed(w.now, ty, ip, n, armed);
    TraceSnoc(w.log, pass, IpCountDb(ty), FailedKey(ty, ip));
    BurstSnoc(CounterTrace(w, ty, ip), pass);
  }

  lemma UntouchedCounter(w: World, w': World, ty: PostType, ip: string)
    requires CounterOk(w, ty, ip) && w.now <= w'.now
    requires Untouched(w, w', IpCountDb(ty), FailedKey(ty, ip))
    ensures CounterOk(w', ty, ip)
  {
  }

  /** The request goes through the gate of this type and address. */
  predicate CallsGate(rq: Request, ty: PostType, ip: string) {
    Classify(rq.buffer) == Accepted(ty) && rq.ip == ip
  }

  lemma SameIsUntouched(w: World, w': World, db: int, k: Key)
    requires w'.store == w.store && w'.log == w.log
    ensures Untouched(w, w', db, k)
  {
  }

  /** The gate calls of (ty, ip) in a run go well; anything may fail elsewhere. */
  ghost predicate PromptRun(env: Env, w: World, rqs: seq<Request>, ty: PostType, ip: string)
    decreases |rqs|
  {
    rqs == [] ||
    (&& (CallsGate(rqs[0], ty, ip) ==> PromptGate(env.tape, w))
     && PromptRun(env, Serve(env, w, rqs[0]).w, rqs[1..], ty, ip))
  }

  /** Only calls of the gate change its counter. */
  lemma CounterKeyIsPrivate(form: Form, rq: Request, ty: PostType, ip: string)
    requires !CallsGate(rq, ty, ip)
    ensures Spares(form, rq, IpCountDb(ty), FailedKey(ty, ip))
  {
  }

  lemma CounterStaysInStep(env: Env, w: World, rq: Request, ty: PostType, ip: string)
    requires CounterOk(w, ty, ip)
    requires CallsGate(rq, ty, ip) ==> PromptGate(env.tape, w)
    ensures CounterOk(Serve(env, w, rq).w, ty, ip)
  {
    hide AfterGate, CheckIp, CounterOk, Untouched, Spares;
    var w' := Serve(env, w, rq).w;
    if CallsGate(rq, ty, ip) && !IpText(ip) {
      GarbledNeverPasses(env.tape, w, IpCountDb(ty), ty, ip);
      SameIsUntouched(w, w', IpCountDb(ty), FailedKey(ty, ip));
      UntouchedCounter(w, w', ty, ip);
    } else if CallsGate(rq, ty, ip) {
      GateFollowsRule(env.tape, w, ty, ip);
      var gate := CheckIp(env.tape, w, IpCountDb(ty), ty, ip);
      if gate.rt == 0 {
        BehindGateFrame(env, gate.w, ty, rq, IpCountDb(ty), FailedKey(ty, ip));
        UntouchedCounter(gate.w, w', ty, ip);
      }
    } else {
      CounterKeyIsPrivate(env.form, rq, ty, ip);
      ServeFrame(env, w, rq, IpCountDb(ty), FailedKey(ty, ip));
      UntouchedCounter(w, w', ty, ip);
    }
  }

  /** Over every run of one worker, whatever requests it serves, the counter of
      (ty, ip) is the burst that its history spells out. */
  lemma {:induction false} CounterRefinesHistory(env: Env, w: World, rqs: seq<Request>, ty: PostType, ip: string)
    requires CounterOk(w, ty, ip) && PromptRun(env, w, rqs, ty, ip)
    ensures CounterOk(Run(env, w, rqs), ty, ip)
    decreases |rqs|
  {
    hide Serve, CounterOk;
    if rqs != [] {
      CounterStaysInStep(env, w, rqs[0], ty, ip);
      CounterRefinesHistory(env, Serve(env, w, rqs[0]).w, rqs[1..], ty, ip);
    }
  }

  lemma FreshCounter(ty: PostType, ip: string)
    ensures CounterOk(FRESH, ty, ip)
  {
  }

  /** The k-th call of a burst passes exactly when k is within the limit, the address is
      plain text and, at signup, no flag of it is alive: after any run from the fresh state. */
  lemma KthCallPasses(env: Env, rqs: seq<Request>, ty: PostType, ip: string)
    requires PromptRun(env, FRESH, rqs, ty, ip) && PromptGate(env.tape, Run(env, FRESH, rqs))
    ensures var w := Run(env, FRESH, rqs);
            var k := Extend(BurstOf(CounterTrace(w, ty, ip)), CallTime(env.tape, w)).n;
            CheckIp(env.tape, w, IpCountDb(ty), ty, ip).rt == 0
            <==> IpText(ip) && k <= (match ty case Signup => 5 case Login => 10 case Admin => 2)
                 && !(ty == Signup && Live(w.store, IpCountDb(ty), OkKey(ty, ip), LookTime(env.tape, w)))
  {
    hide CheckIp, Run, CounterOk, Live, PromptRun, BurstOf, Trace;
    assert CounterOk(FRESH, ty, ip) by { FreshCounter(ty, ip); }
    CounterRefinesHistory(env, FRESH, rqs, ty, ip);
    if IpText(ip) { GateFollowsRule(env.tape, Run(env, FRESH, rqs), ty, ip); }
    else { GarbledNeverPasses(env.tape, Run(env, FRESH, rqs), IpCountDb(ty), ty, ip); }
  }

  /** The address has used up its calls. */
  ghost predicate AtLimit(w: World, ty: PostType, ip: string) {
    var b := BurstOf(CounterTrace(w, ty, ip));
    b.Calls? && b.n >= match ty case Signup => 5 case Login => 10 case Admin => 2
  }

  /** The next gate call goes well and comes less than 3610 s after the last one. */
  ghost predicate CallsInTime(tape: Tape, w: World, ty: PostType, ip: string) {
    var b := BurstOf(CounterTrace(w, ty, ip));
    PromptGate(tape, w) && b.Calls? && CallTime(tape, w) < b.last + WINDOW
  }

  /** So do all gate calls of (ty, ip) in a run. */
  ghost predicate KeepsCalling(env: Env, w: World, rqs: seq<Request>, ty: PostType, ip: string)
    decreases |rqs|
  {
    rqs == [] ||
    (&& (CallsGate(rqs[0], ty, ip) ==> CallsInTime(env.tape, w, ty, ip))
     && KeepsCalling(env, Serve(env, w, rqs[0]).w, rqs[1..], ty, ip))
  }

  lemma ServeKeepsLimit(env: Env, w: World, rq: Request, ty: PostType, ip: string)
    requires CounterOk(w, ty, ip) && AtLimit(w, ty, ip)
    requires CallsGate(rq, ty, ip) ==> CallsInTime(env.tape, w, ty, ip)
    ensures CounterOk(Serve(env, w, rq).w, ty, ip) && AtLimit(Serve(env, w, rq).w, ty, ip)
    ensures CallsGate(rq, ty, ip) ==> Serve(env, w, rq).rt == 211021
  {
    hide AfterGate, CheckIp, CounterOk, Untouched, Spares, Trace, BurstOf;
    CounterStaysInStep(env, w, rq, ty, ip);
    if CallsGate(rq, ty, ip) && IpText(ip) {
      GateFollowsRule(env.tape, w, ty, ip);
    } else if CallsGate(rq, ty, ip) {
      GarbledNeverPasses(env.tape, w, IpCountDb(ty), ty, ip);
    } else {
      CounterKeyIsPrivate(env.form, rq, ty, ip);
      ServeFrame(env, w, rq, IpCountDb(ty), FailedKey(ty, ip));
      SameTrace(w, Serve(env, w, rq).w, ty, ip);
    }
  }

  lemma SameTrace(w: World, w': World, ty: PostType, ip: string)
    requires Untouched(w, w', IpCountDb(ty), FailedKey(ty, ip))
    ensures CounterTrace(w', ty, ip) == CounterTrace(w, ty, ip)
  {
  }

  lemma {:induction false} RefusedFrom(env: Env, w: World, rqs: seq<Request>, ty: PostType, ip: string, k: nat)
    requires CounterOk(w, ty, ip) && AtLimit(w, ty, ip) && KeepsCalling(env, w, rqs, ty, ip)
    requires k < |rqs| && CallsGate(rqs[k], ty, ip)
    ensures Serve(env, Run(env, w, rqs[..k]), rqs[k]).rt == 211021
    decreases |rqs|
  {
    hide Serve, CounterOk, AtLimit, CallsGate, CallsInTime;
    ServeKeepsLimit(env, w, rqs[0], ty, ip);
    if k > 0 {
      assert rqs[..k][0] == rqs[0] && rqs[..k][1..] == rqs[1..][..k - 1];
      RefusedFrom(env, Serve(env, w, rqs[0]).w, rqs[1..], ty, ip, k - 1);
    }
  }

  /** A blocked address stays blocked while it keeps calling. After any run in which it has
      used up its calls, every later request of its, however many, is refused by the gate,
      as long as no two of its calls are 3610 s apart. */
  lemma BlockedStaysBlocked(env: Env, first: seq<Request>, rest: seq<Request>, ty: PostType, ip: string, k: nat)
    requires PromptRun(env, FRESH, first, ty, ip) && AtLimit(Run(env, FRESH, first), ty, ip)
    requires KeepsCalling(env, Run(env, FRESH, first), rest, ty, ip)
    requires k < |rest| && CallsGate(rest[k], ty, ip)
    ensures Serve(env, Run(env, FRESH, first + rest[..k]), rest[k]).rt == 211021
  {
    hide Serve, Run, CounterOk, AtLimit, PromptRun, KeepsCalling, CallsGate;
    FreshCounter(ty, ip);
    CounterRefinesHistory(env, FRESH, first, ty, ip);
    RefusedFrom(env, Run(env, FRESH, first), rest, ty, ip, k);
    RunSplits(env, FRESH, first, rest[..k]);
  }

  // ----- Flags -----

  function FlagTrace(w: World, ip: string): seq<Event> {
    Trace(w.log, IpCountDb(Signup), OkKey(Signup, ip))
  }

  /** A flag set less than 3600 s ago is alive, and a live flag was set so recently. */
  ghost predicate FlagOk(w: World, ip: string) {
    var st, db, k, trace := w.store, IpCountDb(Signup), OkKey(Signup, ip), FlagTrace(w, ip);
    && (forall i :: 0 <= i < |trace| ==> trace[i].Ran? && trace[i].cmd.SetEx? && trace[i].at <= w.now)
    && (trace == [] ==> At(st, db, k).None?)
    && (trace != [] ==> At(st, db, k) == Some(Entry(Text("1"), Some(trace[|trace| - 1].at + FLAG_LIFE))))
    && (forall i, j :: 0 <= i < j < |trace| ==> trace[i].at <= trace[j].at)
  }

  lemma FlagSet(w: World, w': World, ip: string)
    requires FlagOk(w, ip)
    requires Stepped(w, w', IpCountDb(Signup), SetEx(OkKey(Signup, ip), "1", SIGNUP_OK_TTL))
    ensures FlagOk(w', ip)
    ensures FlagTrace(w', ip) == FlagTrace(w, ip)
         || FlagTrace(w', ip)
             == FlagTrace(w, ip) + [Ran(w'.now, IpCountDb(Signup), SetEx(OkKey(Signup, ip), "1", SIGNUP_OK_TTL))]
  {
    hide Trace;
    TraceSnoc(w.log, Ran(w'.now, IpCountDb(Signup), SetEx(OkKey(Signup, ip), "1", SIGNUP_OK_TTL)),
              IpCountDb(Signup), OkKey(Signup, ip));
  }

  /** At most one flag was written on the way, no earlier than `since`. */
  ghost predicate OneFlagAtMost(w: World, w': World, since: int, ip: string) {
    var before, after := FlagTrace(w, ip), FlagTrace(w', ip);
    && FlagOk(w', ip)
    && w.now <= w'.now
    && (|| after == before
        || (|after| == |before| + 1 && after[..|before|] == before && since <= after[|before|].at))
  }

  lemma UntouchedFlag(w: World, w': World, ip: string)
    requires FlagOk(w, ip) && w.now <= w'.now && Untouched(w, w', IpCountDb(Signup), OkKey(Signup, ip))
    ensures OneFlagAtMost(w, w', w.now, ip) && FlagTrace(w', ip) == FlagTrace(w, ip)
  {
  }

  lemma FlagWritten(tape: Tape, w: World, ip: string)
    requires FlagOk(w, ip)
    ensures var put := SetHset(tape, w, IpCountDb(Signup), SIGNUP_OK_TTL, SetEx(OkKey(Signup, ip), "1", SIGNUP_OK_TTL));
            OneFlagAtMost(w, put.w, w.now, ip)
  {
    var w' := Issue(tape, w, IpCountDb(Signup), SetEx(OkKey(Signup, ip), "1", SIGNUP_OK_TTL)).0;
    FlagSet(w, w', ip);
  }

  lemma FlagInTail(env: Env, w: World, rq: Request, user: string, passwd: string, salt: string, ip: string)
    requires FlagOk(w, ip) && FlagIp(env.form, rq) == ip
    ensures OneFlagAtMost(w, SignupTail(env, w, rq, user, passwd, salt).w, w.now, ip)
  {
    hide SetHset, FlagOk, Untouched;
    var flag := SetHset(env.tape, w, IpCountDb(Signup), SIGNUP_OK_TTL, SetEx(OkKey(Signup, ip), "1", SIGNUP_OK_TTL));
    FlagWritten(env.tape, w, ip);
    if flag.rt == 0 {
      var cmd := HSet(UserKey(Login, user), NewRecord(passwd, salt));
      var put := SetHset(env.tape, flag.w, SALT_LOGIN_DB, NEW_USER_TTL, cmd);
      SetHsetFrame(env.tape, flag.w, SALT_LOGIN_DB, NEW_USER_TTL, cmd, IpCountDb(Signup), OkKey(Signup, ip));
      UntouchedFlag(flag.w, put.w, ip);
    }
  }

  lemma FlagInRecordCheck(env: Env, w: World, rq: Request, user: string, passwd: string, salt: string, ip: string)
    requires FlagOk(w, ip) && FlagIp(env.form, rq) == ip
    ensures OneFlagAtMost(w, CheckRecord(env, w, Signup, rq, user, passwd, salt).w, w.now, ip)
  {
    hide SignupTail, LoginTail, GetInt, FlagOk, Untouched;
    var guard := Exists(GuardKey(env.form, Signup, user));
    GetIntFrame(env.tape, w, SALT_LOGIN_DB, guard, IpCountDb(Signup), OkKey(Signup, ip));
    var found := GetInt(env.tape, w, SALT_LOGIN_DB, guard);
    UntouchedFlag(w, found.w, ip);
    FlagInTail(env, found.w, rq, user, passwd, salt, ip);
  }

  /** A submitted signup writes its flag at most once, and only after the gate. */
  lemma FlagBehindGate(env: Env, w: World, ty: PostType, rq: Request, ip: string)
    requires FlagOk(w, ip)
    ensures OneFlagAtMost(w, AfterGate(env, w, ty, rq).w, w.now, ip)
    ensures FlagTrace(AfterGate(env, w, ty, rq).w, ip) != FlagTrace(w, ip) ==>
            ty == Signup && FlagIp(env.form, rq) == ip
  {
    hide CheckSession, CheckRecord, ParseSession, IssueSession, FlagOk, Untouched, FlagIp;
    var db, k := IpCountDb(Signup), OkKey(Signup, ip);
    if (db, k) !in MutatedBehindGate(env.form, ty, rq) {
      BehindGateFrame(env, w, ty, rq, db, k);
      UntouchedFlag(w, AfterGate(env, w, ty, rq).w, ip);
    } else {
      var Submit(user, passwd, salt) := ParseSession(ty, rq.json);
      CheckSessionFrame(env, w, ty, rq, user, salt, db, k);
      var session := CheckSession(env, w, ty, rq, user, salt);
      UntouchedFlag(w, session.w, ip);
      FlagInRecordCheck(env, session.w, rq, user, passwd, salt, ip);
    }
  }

  /** The request is a submitted signup whose flag text is this address. */
  predicate NamesFlag(form: Form, rq: Request, ip: string) {
    Classify(rq.buffer) == Accepted(Signup) && ParseSession(Signup, rq.json).Submit? && FlagIp(form, rq) == ip
  }

  /** Only such a request writes the flag. */
  lemma FlagKeyIsNamed(form: Form, rq: Request, ip: string)
    requires !NamesFlag(form, rq, ip)
    ensures Spares(form, rq, IpCountDb(Signup), OkKey(Signup, ip))
  {
    hide ParseSession;
  }
}
