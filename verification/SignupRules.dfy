/** One account per address per hour, and no account over another: what each form of
    the handler gives (src/http_server_main_loop_handler.c, src/redis_check_ip.c). */
module SignupRules {
  import opened Common
  import opened RedisStore
  import opened HttpText
  import opened HttpParser
  import opened PostPath
  import opened Protocol
  import opened History
  import opened GateHistory
  import opened WindowBound

  // ----- Signup flags over a run -----

  /** Any two flags are at least 3600 s apart. */
  ghost predicate Spaced(trace: seq<Event>) {
    forall i, j :: 0 <= i < j < |trace| && trace[i].Ran? && trace[j].Ran? ==> trace[i].at + FLAG_LIFE <= trace[j].at
  }

  ghost predicate FlagInv(w: World, ip: string) {
    FlagOk(w, ip) && Spaced(FlagTrace(w, ip))
  }

  /** A signup request passes the gate only when every flag of its address has expired. */
  lemma PassMeansNoFlag(tape: Tape, w: World, ip: string)
    requires FlagOk(w, ip) && CheckIp(tape, w, IpCountDb(Signup), Signup, ip).rt == 0
    ensures var gate := CheckIp(tape, w, IpCountDb(Signup), Signup, ip);
            && FlagOk(gate.w, ip) && FlagTrace(gate.w, ip) == FlagTrace(w, ip) && w.now <= gate.w.now
            && forall i :: 0 <= i < |FlagTrace(w, ip)| ==> FlagTrace(w, ip)[i].at + FLAG_LIFE <= gate.w.now
  {
    hide Increment, Settle, Effect;
    var db, k, trace := IpCountDb(Signup), OkKey(Signup, ip), FlagTrace(w, ip);
    GateFrame(tape, w, Signup, ip, db, k);
    UntouchedFlag(w, CheckIp(tape, w, db, Signup, ip).w, ip);
    var w1 := Connect(tape, w, db).0;
    var flag := GetInt(tape, w1, db, Exists(k));
    IncrementFrame(tape, flag.w, db, SIGNUP_FAILED_TTL, FailedKey(Signup, ip), db, k);
    assert !Live(w.store, db, k, flag.w.now);
    if trace != [] { assert trace[|trace| - 1].at + FLAG_LIFE <= flag.w.now; }
  }

  /** How a flag history may grow in one request. */
  ghost predicate Grown(before: seq<Event>, after: seq<Event>) {
    after == before || (|after| == |before| + 1 && after[..|before|] == before)
  }

  /** One request, in either form: flags are kept, and at most one is added, by a submitted
      signup that names the address, after its own gate call. */
  lemma FlagStep(env: Env, w: World, rq: Request, ip: string)
    requires FlagOk(w, ip)
    ensures var w' := Serve(env, w, rq).w;
            var before, after := FlagTrace(w, ip), FlagTrace(w', ip);
            && FlagOk(w', ip) && w.now <= w'.now && Grown(before, after)
            && (after != before ==>
                  && NamesFlag(env.form, rq, ip)
                  && CheckIp(env.tape, w, IpCountDb(Signup), Signup, rq.ip).rt == 0
                  && CheckIp(env.tape, w, IpCountDb(Signup), Signup, rq.ip).w.now <= after[|before|].at)
  {
    hide AfterGate, CheckIp, FlagOk, Trace, FlagTrace, Untouched, Spares, NamesFlag;
    if NamesFlag(env.form, rq, ip) {
      NamesSignup(env.form, rq, ip);
      var gate := CheckIp(env.tape, w, IpCountDb(Signup), Signup, rq.ip);
      GateFrame(env.tape, w, Signup, rq.ip, IpCountDb(Signup), OkKey(Signup, ip));
      UntouchedFlag(w, gate.w, ip);
      if gate.rt == 0 { FlagBehindGate(env, gate.w, Signup, rq, ip); }
    } else {
      FlagKeyIsNamed(env.form, rq, ip);
      ServeFrame(env, w, rq, IpCountDb(Signup), OkKey(Signup, ip));
      UntouchedFlag(w, Serve(env, w, rq).w, ip);
    }
  }

  lemma NamesSignup(form: Form, rq: Request, ip: string)
    requires NamesFlag(form, rq, ip)
    ensures Classify(rq.buffer) == Accepted(Signup) && FlagIp(form, rq) == ip
  {
  }

  /** Over a run, in either form: the flags of an address are what its history says. */
  lemma {:induction false} RunKeepsFlags(env: Env, w: World, rqs: seq<Request>, ip: string)
    requires FlagOk(w, ip)
    ensures FlagOk(Run(env, w, rqs), ip) && FlagTrace(w, ip) <= FlagTrace(Run(env, w, rqs), ip)
    ensures w.now <= Run(env, w, rqs).now
    decreases |rqs|
  {
    hide Serve, FlagOk, FlagTrace, CheckIp, NamesFlag;
    if rqs != [] {
      FlagStep(env, w, rqs[0], ip);
      RunKeepsFlags(env, Serve(env, w, rqs[0]).w, rqs[1..], ip);
    }
  }

  /** In every run, in either form: a flag is alive exactly when one was set under this text
      less than 3600 s ago. */
  lemma FlagAliveExactly(env: Env, rqs: seq<Request>, ip: string, now: int)
    requires Run(env, FRESH, rqs).now <= now
    ensures var w := Run(env, FRESH, rqs);
            Live(w.store, IpCountDb(Signup), OkKey(Signup, ip), now)
            <==> exists i :: 0 <= i < |FlagTrace(w, ip)| && now < FlagTrace(w, ip)[i].at + FLAG_LIFE
  {
    hide Run, Trace;
    FreshFlags(ip);
    RunKeepsFlags(env, FRESH, rqs, ip);
    LastFlagLives(Run(env, FRESH, rqs), ip, now);
  }

  lemma LastFlagLives(w: World, ip: string, now: int)
    requires FlagOk(w, ip)
    ensures Live(w.store, IpCountDb(Signup), OkKey(Signup, ip), now)
       <==> exists i :: 0 <= i < |FlagTrace(w, ip)| && now < FlagTrace(w, ip)[i].at + FLAG_LIFE
  {
    hide Trace;
    var trace := FlagTrace(w, ip);
    if trace != [] {
      var n := |trace| - 1;
      assert forall i :: 0 <= i < |trace| ==> trace[i].at <= trace[n].at;
      if now < trace[n].at + FLAG_LIFE { assert Live(w.store, IpCountDb(Signup), OkKey(Signup, ip), now); }
    }
  }

  lemma FlagsStaySpaced(env: Env, w: World, rq: Request, ip: string)
    requires env.form.flagOnIp && FlagInv(w, ip)
    ensures FlagInv(Serve(env, w, rq).w, ip)
  {
    hide Serve, CheckIp, FlagOk, Trace, FlagTrace, Spaced, NamesFlag;
    FlagStep(env, w, rq, ip);
    var before, after := FlagTrace(w, ip), FlagTrace(Serve(env, w, rq).w, ip);
    if after != before {
      NamesSignup(env.form, rq, ip);
      PassMeansNoFlag(env.tape, w, ip);
      GrownSpaced(before, after, CheckIp(env.tape, w, IpCountDb(Signup), Signup, ip).w.now);
    }
  }

  lemma GrownSpaced(before: seq<Event>, after: seq<Event>, since: int)
    requires Spaced(before) && Grown(before, after)
    requires forall i :: 0 <= i < |before| ==> before[i].at + FLAG_LIFE <= since
    requires after != before ==> since <= after[|before|].at
    ensures Spaced(after)
  {
    if after != before {
      assert forall i :: 0 <= i < |before| ==> after[i] == before[i];
    }
  }

  /** With the flag named by the address, any two flags of an address in a run are at least
      3600 s apart, those of signups that failed later on included. */
  lemma {:induction false} RunSpacesFlags(env: Env, w: World, rqs: seq<Request>, ip: string)
    requires env.form.flagOnIp && FlagInv(w, ip)
    ensures FlagInv(Run(env, w, rqs), ip)
    decreases |rqs|
  {
    hide Serve, FlagInv;
    if rqs != [] {
      FlagsStaySpaced(env, w, rqs[0], ip);
      RunSpacesFlags(env, Serve(env, w, rqs[0]).w, rqs[1..], ip);
    }
  }

  /** A successful signup has set the flag that its form names, just then. */
  lemma SuccessSetsFlag(env: Env, w: World, rq: Request, ip: string)
    requires Classify(rq.buffer) == Accepted(Signup) && Serve(env, w, rq).rt == 0
    requires ip == FlagIp(env.form, rq) && FlagOk(w, ip)
    ensures var before, after := FlagTrace(w, ip), FlagTrace(Serve(env, w, rq).w, ip);
            && |after| == |before| + 1 && after[..|before|] == before && FlagOk(Serve(env, w, rq).w, ip)
            && after[|before|].Ran? && w.now <= after[|before|].at <= Serve(env, w, rq).w.now
            && CheckIp(env.tape, w, IpCountDb(Signup), Signup, rq.ip).rt == 0
            && CheckIp(env.tape, w, IpCountDb(Signup), Signup, rq.ip).w.now <= after[|before|].at
    ensures IpText(rq.ip) && IpText(ip)
  {
    hide CheckIp, CheckSession, CheckRecord, IssueSession, ParseSession, Trace, FlagOk, FlagIp, IpText;
    if !IpText(rq.ip) { GarbledNeverPasses(env.tape, w, IpCountDb(Signup), Signup, rq.ip); }
    var db, k := IpCountDb(Signup), OkKey(Signup, ip);
    var gate := CheckIp(env.tape, w, db, Signup, rq.ip);
    GateFrame(env.tape, w, Signup, rq.ip, db, k);
    UntouchedFlag(w, gate.w, ip);
    SessionNeverReturnsZero(env, gate.w, Signup, rq);
    var Submit(user, passwd, salt) := ParseSession(Signup, rq.json);
    var session := CheckSession(env, gate.w, Signup, rq, user, salt);
    CheckSessionFrame(env, gate.w, Signup, rq, user, salt, db, k);
    UntouchedFlag(gate.w, session.w, ip);
    SuccessInRecordCheck(env, session.w, rq, user, passwd, salt, ip);
  }

  lemma SessionNeverReturnsZero(env: Env, w: World, ty: PostType, rq: Request)
    requires AfterGate(env, w, ty, rq).rt == 0
    ensures ParseSession(ty, rq.json).Submit?
    ensures var Submit(user, passwd, salt) := ParseSession(ty, rq.json);
            CheckSession(env, w, ty, rq, user, salt).rt == 0
  {
    hide GetString, SetHset, CheckRecord, ParseSession, CookieOf;
  }

  lemma SuccessInRecordCheck(env: Env, w: World, rq: Request, user: string, passwd: string, salt: string, ip: string)
    requires FlagOk(w, ip) && ip == FlagIp(env.form, rq)
    requires CheckRecord(env, w, Signup, rq, user, passwd, salt).rt == 0
    ensures var before, w' := FlagTrace(w, ip), CheckRecord(env, w, Signup, rq, user, passwd, salt).w;
            var after := FlagTrace(w', ip);
            && |after| == |before| + 1 && after[..|before|] == before && FlagOk(w', ip)
            && after[|before|].Ran? && w.now <= after[|before|].at <= w'.now
    ensures IpText(ip)
  {
    hide GetInt, IpText, SetHset, LoginTail, FlagOk, Trace;
    var db, k := IpCountDb(Signup), OkKey(Signup, ip);
    var guard := Exists(GuardKey(env.form, Signup, user));
    var found := GetInt(env.tape, w, SALT_LOGIN_DB, guard);
    GetIntFrame(env.tape, w, SALT_LOGIN_DB, guard, db, k);
    UntouchedFlag(w, found.w, ip);
    FlagPutSucceeds(env.tape, found.w, ip);
    var flag := SetHset(env.tape, found.w, db, SIGNUP_OK_TTL, SetEx(k, "1", SIGNUP_OK_TTL));
    var cmd := HSet(UserKey(Login, user), NewRecord(passwd, salt));
    SetHsetFrame(env.tape, flag.w, SALT_LOGIN_DB, NEW_USER_TTL, cmd, db, k);
    UntouchedFlag(flag.w, SetHset(env.tape, flag.w, SALT_LOGIN_DB, NEW_USER_TTL, cmd).w, ip);
  }

  lemma FlagPutSucceeds(tape: Tape, w: World, ip: string)
    requires FlagOk(w, ip)
    ensures var put := SetHset(tape, w, IpCountDb(Signup), SIGNUP_OK_TTL, SetEx(OkKey(Signup, ip), "1", SIGNUP_OK_TTL));
            put.rt == 0 ==>
              && IpText(ip) && FlagOk(put.w, ip) && w.now <= put.w.now
              && FlagTrace(put.w, ip)
                 == FlagTrace(w, ip) + [Ran(put.w.now, IpCountDb(Signup), SetEx(OkKey(Signup, ip), "1", SIGNUP_OK_TTL))]
  {
    hide Settle, Trace;
    var cmd := SetEx(OkKey(Signup, ip), "1", SIGNUP_OK_TTL);
    var w' := Issue(tape, w, IpCountDb(Signup), cmd).0;
    FlagSet(w, w', ip);
    TraceSnoc(w.log, Ran(w'.now, IpCountDb(Signup), cmd), IpCountDb(Signup), OkKey(Signup, ip));
  }

  /** Request i of the run is a signup that returned 0. */
  ghost predicate SignedUp(env: Env, rqs: seq<Request>, i: nat) {
    && i < |rqs|
    && Classify(rqs[i].buffer) == Accepted(Signup)
    && Serve(env, Run(env, FRESH, rqs[..i]), rqs[i]).rt == 0
  }

  /** When request i set its flag: the last flag under its text after it was served. */
  function FlagTime(env: Env, rqs: seq<Request>, i: nat): int
    requires i < |rqs|
  {
    var trace := FlagTrace(Run(env, FRESH, rqs[..i + 1]), FlagIp(env.form, rqs[i]));
    if trace == [] || !trace[|trace| - 1].Ran? then 0 else trace[|trace| - 1].at
  }

  /** A successful signup's flag is the last under its text, new, and later than its gate call. */
  lemma FlagOfSignup(env: Env, rqs: seq<Request>, i: nat)
    requires SignedUp(env, rqs, i)
    ensures var w, w' := Run(env, FRESH, rqs[..i]), Run(env, FRESH, rqs[..i + 1]);
            var name := FlagIp(env.form, rqs[i]);
            var before, after := FlagTrace(w, name), FlagTrace(w', name);
            var gate := CheckIp(env.tape, w, IpCountDb(Signup), Signup, rqs[i].ip);
            && FlagOk(w, name) && FlagOk(w', name)
            && |after| == |before| + 1 && FlagTime(env, rqs, i) == after[|before|].at
            && gate.rt == 0 && w.now <= FlagTime(env, rqs, i) <= w'.now && gate.w.now <= FlagTime(env, rqs, i)
            && IpText(rqs[i].ip) && IpText(name)
  {
    hide Serve, Run, Trace, FlagOk, CheckIp, IpText;
    var name := FlagIp(env.form, rqs[i]);
    FreshFlags(name);
    RunKeepsFlags(env, FRESH, rqs[..i], name);
    RunKeepsFlags(env, FRESH, rqs[..i + 1], name);
    AfterRequest(env, rqs, i);
    SuccessSetsFlag(env, Run(env, FRESH, rqs[..i]), rqs[i], name);
  }

  /** One account per address and hour, in either form: if a successful signup named its flag
      by its address, the address's next successful signup, in any run of one worker and
      under any failures, sets its own flag at least 3600 s later. Both flags are set while
      their requests are being served. */
  lemma AccountsAnHourApart(env: Env, rqs: seq<Request>, i: nat, j: nat)
    requires i < j && SignedUp(env, rqs, i) && SignedUp(env, rqs, j) && rqs[i].ip == rqs[j].ip
    requires FlagIp(env.form, rqs[i]) == rqs[i].ip
    ensures FlagTime(env, rqs, i) + FLAG_LIFE <= FlagTime(env, rqs, j)
    ensures Run(env, FRESH, rqs[..i]).now <= FlagTime(env, rqs, i) <= Run(env, FRESH, rqs[..i + 1]).now
    ensures Run(env, FRESH, rqs[..j]).now <= FlagTime(env, rqs, j) <= Run(env, FRESH, rqs[..j + 1]).now
  {
    hide Serve, Run, Trace, FlagOk, Classify, CheckIp;
    var ip, w1 := rqs[i].ip, Run(env, FRESH, rqs[..i + 1]);
    FlagOfSignup(env, rqs, i);
    FlagOfSignup(env, rqs, j);
    assert rqs[..j] == rqs[..i + 1] + rqs[i + 1..j];
    RunSplits(env, FRESH, rqs[..i + 1], rqs[i + 1..j]);
    RunKeepsFlags(env, w1, rqs[i + 1..j], ip);
    var last := |FlagTrace(w1, ip)| - 1;
    assert FlagTrace(Run(env, FRESH, rqs[..j]), ip)[last] == FlagTrace(w1, ip)[last];
    PassMeansNoFlag(env.tape, Run(env, FRESH, rqs[..j]), ip);
  }

  lemma FreshFlags(ip: string)
    ensures FlagInv(FRESH, ip)
  {
  }

  /** In every run, in either form: after a successful signup, whatever else was served since
      (but no other signup that names the address), the address's next gate call for a signup
      within the hour is turned away by the flag exactly when the signup had named its flag
      by the address. The code as written prints a pointer's bytes there. */
  lemma FlagBlocksIffNamed(env: Env, rqs: seq<Request>, i: nat)
    requires SignedUp(env, rqs, i) && NoLaterName(env.form, rqs, i)
    requires var w := Run(env, FRESH, rqs);
             SmoothFor(env.tape, w.pos, 5) && LookTime(env.tape, w) < FlagTime(env, rqs, i) + FLAG_LIFE
    ensures CheckIp(env.tape, Run(env, FRESH, rqs), IpCountDb(Signup), Signup, rqs[i].ip).rt == 111011
       <==> FlagIp(env.form, rqs[i]) == rqs[i].ip
  {
    hide Serve, Run, CheckIp, Trace, Climbing, PassesCovered, FlagOk, NoLaterName;
    var ip, w := rqs[i].ip, Run(env, FRESH, rqs);
    if FlagIp(env.form, rqs[i]) == ip { NamedFlagLives(env, rqs, i, LookTime(env.tape, w)); }
    else { OtherFlagLeavesGone(env, rqs, i, LookTime(env.tape, w)); }
    FlagOfSignup(env, rqs, i);
    FreshPasses(Signup, ip);
    RunKeepsPasses(env, FRESH, rqs, Signup, ip);
    SmoothGateVerdict(env.tape, w, ip);
  }

  /** No request after the i-th is a submitted signup that names its address. */
  ghost predicate NoLaterName(form: Form, rqs: seq<Request>, i: nat)
    requires i < |rqs|
  {
    forall k :: i < k < |rqs| ==> !NamesFlag(form, rqs[k], rqs[i].ip)
  }

  lemma NothingLater(env: Env, rqs: seq<Request>, i: nat)
    requires i < |rqs| && NoLaterName(env.form, rqs, i)
    ensures Untouched(Run(env, FRESH, rqs[..i + 1]), Run(env, FRESH, rqs), IpCountDb(Signup), OkKey(Signup, rqs[i].ip))
    ensures Run(env, FRESH, rqs[..i + 1]).now <= Run(env, FRESH, rqs).now
  {
    hide Run, NamesFlag, Spares, Trace, At;
    var rest := rqs[i + 1..];
    assert rqs == rqs[..i + 1] + rest;
    RunSplits(env, FRESH, rqs[..i + 1], rest);
    forall k | 0 <= k < |rest| ensures Spares(env.form, rest[k], IpCountDb(Signup), OkKey(Signup, rqs[i].ip)) {
      assert rest[k] == rqs[i + 1 + k];
      FlagKeyIsNamed(env.form, rest[k], rqs[i].ip);
    }
    RunFrame(env, Run(env, FRESH, rqs[..i + 1]), rest, IpCountDb(Signup), OkKey(Signup, rqs[i].ip));
  }

  lemma NamedFlagLives(env: Env, rqs: seq<Request>, i: nat, now: int)
    requires SignedUp(env, rqs, i) && NoLaterName(env.form, rqs, i) && FlagIp(env.form, rqs[i]) == rqs[i].ip
    requires now < FlagTime(env, rqs, i) + FLAG_LIFE
    ensures Live(Run(env, FRESH, rqs).store, IpCountDb(Signup), OkKey(Signup, rqs[i].ip), now)
  {
    hide Serve, Run, Trace, CheckIp, NoLaterName;
    FlagOfSignup(env, rqs, i);
    NothingLater(env, rqs, i);
  }

  /** If the flag is named otherwise, the address has no live flag from then on. */
  lemma OtherFlagLeavesGone(env: Env, rqs: seq<Request>, i: nat, now: int)
    requires SignedUp(env, rqs, i) && NoLaterName(env.form, rqs, i) && FlagIp(env.form, rqs[i]) != rqs[i].ip
    requires Run(env, FRESH, rqs).now <= now
    ensures !Live(Run(env, FRESH, rqs).store, IpCountDb(Signup), OkKey(Signup, rqs[i].ip), now)
  {
    hide Serve, Run, Trace, CheckIp, NoLaterName, NamesFlag, FlagOk;
    var ip, w := rqs[i].ip, Run(env, FRESH, rqs[..i]);
    FreshFlags(ip);
    RunKeepsFlags(env, FRESH, rqs[..i], ip);
    FlagOfSignup(env, rqs, i);
    PassMeansNoFlag(env.tape, w, ip);
    AfterRequest(env, rqs, i);
    FlagStep(env, w, rqs[i], ip);
    if NamesFlag(env.form, rqs[i], ip) { NamesSignup(env.form, rqs[i], ip); }
    LastFlagLives(Run(env, FRESH, rqs[..i + 1]), ip, now);
    NothingLater(env, rqs, i);
    SameLife(Run(env, FRESH, rqs[..i + 1]), Run(env, FRESH, rqs), ip, now);
  }

  lemma SameLife(w: World, w': World, ip: string, now: int)
    requires Untouched(w, w', IpCountDb(Signup), OkKey(Signup, ip))
    ensures Live(w'.store, IpCountDb(Signup), OkKey(Signup, ip), now) <==>
            Live(w.store, IpCountDb(Signup), OkKey(Signup, ip), now)
  {
  }

  lemma SmoothIncrement(tape: Tape, w: World, ty: PostType, ip: string)
    requires IpText(ip) && SmoothFor(tape, w.pos, 3) && Counting(CounterEntry(w, ty, ip))
    ensures Increment(tape, w, IpCountDb(ty), SIGNUP_FAILED_TTL, FailedKey(ty, ip)).rt == 0
  {
    assert Smooth(tape(w.pos)) && Smooth(tape(w.pos + 1)) && Smooth(tape(w.pos + 2));
  }

  lemma SmoothGateVerdict(tape: Tape, w: World, ip: string)
    requires IpText(ip) && SmoothFor(tape, w.pos, 5) && Counting(CounterEntry(w, Signup, ip))
    ensures CheckIp(tape, w, IpCountDb(Signup), Signup, ip).rt == 111011
       <==> Live(w.store, IpCountDb(Signup), OkKey(Signup, ip), LookTime(tape, w))
  {
    hide GetInt, Connect, Increment, Live;
    var flag := FlagLookup(tape, w, Signup, ip);
    SmoothIncrement(tape, flag.w, Signup, ip);
  }

  /** Silence readmits, in every run and in either form. When the last 3610 s brought no gate
      call of the address and no signup that names it, its next gate call returns 0, provided
      the address is plain text: a flag lives for 3600 s only, a counter for 3610 s. */
  lemma SilenceReadmits(env: Env, first: seq<Request>, quiet: seq<Request>, ty: PostType, ip: string)
    requires PromptRun(env, FRESH, first, ty, ip)
    requires forall i :: 0 <= i < |quiet| ==> !CallsGate(quiet[i], ty, ip)
    requires ty == Signup ==> forall i :: 0 <= i < |quiet| ==> !NamesFlag(env.form, quiet[i], ip)
    requires var w := Run(env, FRESH, first + quiet);
             PromptGate(env.tape, w) && Run(env, FRESH, first).now + WINDOW <= LookTime(env.tape, w)
    ensures CheckIp(env.tape, Run(env, FRESH, first + quiet), IpCountDb(ty), ty, ip).rt == 0 <==> IpText(ip)
  {
    hide CheckIp, Run, PromptRun, CallsGate, NamesFlag, Spares, Trace, CounterOk, FlagOk, Untouched, Live, BurstOf;
    var w1, w := Run(env, FRESH, first), Run(env, FRESH, first + quiet);
    RunSplits(env, FRESH, first, quiet);
    FreshCounter(ty, ip);
    CounterRefinesHistory(env, FRESH, first, ty, ip);
    forall i | 0 <= i < |quiet| ensures Spares(env.form, quiet[i], IpCountDb(ty), FailedKey(ty, ip)) {
      CounterKeyIsPrivate(env.form, quiet[i], ty, ip);
    }
    RunFrame(env, w1, quiet, IpCountDb(ty), FailedKey(ty, ip));
    UntouchedCounter(w1, w, ty, ip);
    SameTrace(w1, w, ty, ip);
    LastCallPast(w1, ty, ip);
    if IpText(ip) { GateFollowsRule(env.tape, w, ty, ip); }
    else { GarbledNeverPasses(env.tape, w, IpCountDb(ty), ty, ip); }
    if ty == Signup { QuietFlagDead(env, first, quiet, ip, LookTime(env.tape, w)); }
  }

  lemma LastCallPast(w: World, ty: PostType, ip: string)
    requires CounterOk(w, ty, ip)
    ensures BurstOf(CounterTrace(w, ty, ip)).Calls? ==> BurstOf(CounterTrace(w, ty, ip)).last <= w.now
  {
  }

  lemma QuietFlagDead(env: Env, first: seq<Request>, quiet: seq<Request>, ip: string, now: int)
    requires forall i :: 0 <= i < |quiet| ==> !NamesFlag(env.form, quiet[i], ip)
    requires Run(env, FRESH, first).now + FLAG_LIFE <= now
    ensures !Live(Run(env, FRESH, first + quiet).store, IpCountDb(Signup), OkKey(Signup, ip), now)
  {
    hide Run, NamesFlag, Spares, Trace, Untouched, FlagOk;
    var w1 := Run(env, FRESH, first);
    RunSplits(env, FRESH, first, quiet);
    FreshFlags(ip);
    RunKeepsFlags(env, FRESH, first, ip);
    forall i | 0 <= i < |quiet| ensures Spares(env.form, quiet[i], IpCountDb(Signup), OkKey(Signup, ip)) {
      FlagKeyIsNamed(env.form, quiet[i], ip);
    }
    RunFrame(env, w1, quiet, IpCountDb(Signup), OkKey(Signup, ip));
    SameLife(w1, Run(env, FRESH, first + quiet), ip, now);
    FlagsPast(w1, ip);
    LastFlagLives(w1, ip, now);
  }

  lemma FlagsPast(w: World, ip: string)
    requires FlagOk(w, ip)
    ensures forall i :: 0 <= i < |FlagTrace(w, ip)| ==> FlagTrace(w, ip)[i].at <= w.now
  {
  }

  // ----- No account over another -----

  function RecordOf(w: World, user: string): Option<Entry> {
    At(w.store, SALT_LOGIN_DB, UserKey(Login, user))
  }

  predicate AliveAt(entry: Entry, now: int) {
    entry.expiry.None? || now < entry.expiry.value
  }

  /** With the guard taken on the key the record is written to, a request leaves every
      record that is still alive at its end exactly as it was. */
  lemma RecordOutlivesRequest(env: Env, w: World, rq: Request, user: string, entry: Entry)
    requires env.form.guardOnRecord
    requires RecordOf(w, user) == Some(entry) && AliveAt(entry, Serve(env, w, rq).w.now)
    ensures RecordOf(Serve(env, w, rq).w, user) == Some(entry)
  {
    hide CheckIp, CheckSession, CheckRecord, IssueSession, Trace, ParseSession, At;
    var db, k := SALT_LOGIN_DB, UserKey(Login, user);
    if Classify(rq.buffer).Accepted? && (db, k) in Mutated(env.form, Classify(rq.buffer).ty, rq) {
      var Submit(_, passwd, salt) := ParseSession(Signup, rq.json);
      var gate := CheckIp(env.tape, w, IpCountDb(Signup), Signup, rq.ip);
      GateFrame(env.tape, w, Signup, rq.ip, db, k);
      var session := CheckSession(env, gate.w, Signup, rq, user, salt);
      CheckSessionFrame(env, gate.w, Signup, rq, user, salt, db, k);
      if gate.rt == 0 && HeadEnd(rq.buffer).Some? && session.rt == 0 {
        GuardStops(env, session.w, rq, user, passwd, salt, entry);
      }
    } else {
      ServeFrame(env, w, rq, db, k);
    }
  }

  lemma GuardStops(env: Env, w: World, rq: Request, user: string, passwd: string, salt: string, entry: Entry)
    requires env.form.guardOnRecord
    requires RecordOf(w, user) == Some(entry)
    requires AliveAt(entry, CheckRecord(env, w, Signup, rq, user, passwd, salt).w.now)
    ensures RecordOf(CheckRecord(env, w, Signup, rq, user, passwd, salt).w, user) == Some(entry)
  {
    hide SignupTail, LoginTail, Settle;
    var guard := Exists(UserKey(Login, user));
    var found := GetInt(env.tape, w, SALT_LOGIN_DB, guard);
    SignupTailTime(env, found.w, rq, user, passwd, salt);
  }

  lemma SignupTailTime(env: Env, w: World, rq: Request, user: string, passwd: string, salt: string)
    ensures w.now <= SignupTail(env, w, rq, user, passwd, salt).w.now
  {
    hide Settle, Effect;
  }

  /** No run of one worker replaces a live record. */
  lemma {:induction false} RecordOutlivesRun(env: Env, w: World, rqs: seq<Request>, user: string, entry: Entry)
    requires env.form.guardOnRecord
    requires RecordOf(w, user) == Some(entry) && AliveAt(entry, Run(env, w, rqs).now)
    ensures RecordOf(Run(env, w, rqs), user) == Some(entry)
    decreases |rqs|
  {
    hide Serve, RecordOf;
    if rqs != [] {
      RunTime(env, Serve(env, w, rqs[0]).w, rqs[1..]);
      RecordOutlivesRequest(env, w, rqs[0], user, entry);
      RecordOutlivesRun(env, Serve(env, w, rqs[0]).w, rqs[1..], user, entry);
    }
  }

  /** Neither form ever writes a record key of another type than login. */
  lemma {:induction false} StrayRecordsNeverWritten(env: Env, w: World, rqs: seq<Request>, ty: PostType,
                                                    user: string, db: int)
    requires ty != Login && At(w.store, db, UserKey(ty, user)).None?
    ensures At(Run(env, w, rqs).store, db, UserKey(ty, user)).None?
    decreases |rqs|
  {
    hide Serve, At;
    if rqs != [] {
      ServeFrame(env, w, rqs[0], db, UserKey(ty, user));
      StrayRecordsNeverWritten(env, Serve(env, w, rqs[0]).w, rqs[1..], ty, user, db);
    }
  }

  ghost predicate RecordShaped(entry: Option<Entry>) {
    entry.Some? ==> entry.value.value.Fields?
  }

  /** The record holds these signup data. */
  ghost predicate Holds(entry: Option<Entry>, passwd: string, salt: string) {
    && entry.Some? && entry.value.value.Fields?
    && forall name :: name in NewRecord(passwd, salt) ==>
         name in entry.value.value.fields && entry.value.value.fields[name] == NewRecord(passwd, salt)[name]
  }

  /** An old record does not expire between the HSET that finds it and the EXPIRE. */
  ghost predicate NotInBetween(entry: Option<Entry>, hsetTime: int, expireTime: int) {
    entry.Some? && entry.value.expiry.Some? ==>
      !(hsetTime < entry.value.expiry.value <= expireTime)
  }

  lemma SmoothFlagPut(tape: Tape, w: World, k: Key, user: string)
    requires Smooth(tape(w.pos)) && k.OkKey? && IpText(k.ip)
    ensures var put := SetHset(tape, w, IpCountDb(Signup), SIGNUP_OK_TTL, SetEx(k, "1", SIGNUP_OK_TTL));
            && put.rt == 0 && put.w.pos == w.pos + 1 && put.w.now == w.now + tape(w.pos).wait
            && RecordOf(put.w, user) == RecordOf(w, user)
  {
  }

  lemma SmoothRecordPut(tape: Tape, w: World, user: string, passwd: string, salt: string)
    requires Smooth(tape(w.pos)) && Smooth(tape(w.pos + 1)) && RecordShaped(RecordOf(w, user))
    requires NotInBetween(RecordOf(w, user), w.now + tape(w.pos).wait, w.now + tape(w.pos).wait + tape(w.pos + 1).wait)
    ensures var put :=
            SetHset(tape, w, SALT_LOGIN_DB, NEW_USER_TTL, HSet(UserKey(Login, user), NewRecord(passwd, salt)));
            && put.rt == 0 && Holds(RecordOf(put.w, user), passwd, salt)
            && RecordOf(put.w, user).value.expiry == Some(put.w.now + 2_592_000_000)
  {
    hide Issue, Send, Holds, NotInBetween, NewRecord;
    SmoothHSet(tape, w, user, passwd, salt);
    var w1 := Issue(tape, w, SALT_LOGIN_DB, HSet(UserKey(Login, user), NewRecord(passwd, salt))).0;
    SmoothRecordExpire(tape, w1, user, passwd, salt);
  }

  lemma SmoothHSet(tape: Tape, w: World, user: string, passwd: string, salt: string)
    requires Smooth(tape(w.pos)) && RecordShaped(RecordOf(w, user))
    requires NotInBetween(RecordOf(w, user), w.now + tape(w.pos).wait, w.now + tape(w.pos).wait + tape(w.pos + 1).wait)
    ensures var (w1, reply) := Issue(tape, w, SALT_LOGIN_DB, HSet(UserKey(Login, user), NewRecord(passwd, salt)));
            && reply.IntReply? && Holds(RecordOf(w1, user), passwd, salt)
            && w1.pos == w.pos + 1 && AliveAt(RecordOf(w1, user).value, w1.now + tape(w1.pos).wait)
  {
    hide Effect, Holds, NewRecord;
    var cmd := HSet(UserKey(Login, user), NewRecord(passwd, salt));
    HSetHolds(w.store, user, passwd, salt, w.now + tape(w.pos).wait);
  }

  lemma HSetHolds(st: Store, user: string, passwd: string, salt: string, now: int)
    requires RecordShaped(At(st, SALT_LOGIN_DB, UserKey(Login, user)))
    ensures var before := At(st, SALT_LOGIN_DB, UserKey(Login, user));
            var after := At(Effect(st, SALT_LOGIN_DB, HSet(UserKey(Login, user), NewRecord(passwd, salt)), now),
                            SALT_LOGIN_DB, UserKey(Login, user));
            && Holds(after, passwd, salt)
            && after.value.expiry == if before.Some? && AliveAt(before.value, now) then before.value.expiry else None
  {
  }

  lemma SmoothRecordExpire(tape: Tape, w: World, user: string, passwd: string, salt: string)
    requires Smooth(tape(w.pos)) && Holds(RecordOf(w, user), passwd, salt)
    requires AliveAt(RecordOf(w, user).value, w.now + tape(w.pos).wait)
    ensures var (w1, reply) := Send(tape, w, SALT_LOGIN_DB, Expire(UserKey(Login, user), NEW_USER_TTL));
            && reply == IntReply(1) && Holds(RecordOf(w1, user), passwd, salt)
            && RecordOf(w1, user).value.expiry == Some(w1.now + 2_592_000_000)
  {
  }

  /** The command of a flag whose text is cut is refused, and the signup with it. */
  lemma CutSignupTail(env: Env, w: World, rq: Request, user: string, passwd: string, salt: string)
    requires Smooth(env.tape(w.pos)) && FlagCut(env.form, rq)
    ensures var h := SignupTail(env, w, rq, user, passwd, salt);
            h.rt == 211101 && RecordOf(h.w, user) == RecordOf(w, user)
  {
    hide FlagIp, NewRecord, DecText;
    assert !FlagPlain(env.form, rq);
  }

  lemma SmoothSignupTail(env: Env, w: World, rq: Request, user: string, passwd: string, salt: string)
    requires FlagPlain(env.form, rq) && SmoothFor(env.tape, w.pos, 3) && RecordShaped(RecordOf(w, user))
    requires var hsetTime := w.now + env.tape(w.pos).wait + env.tape(w.pos + 1).wait;
             NotInBetween(RecordOf(w, user), hsetTime, hsetTime + env.tape(w.pos + 2).wait)
    ensures var h := SignupTail(env, w, rq, user, passwd, salt);
            && h.rt == 0 && h.sent == [Welcome] && Holds(RecordOf(h.w, user), passwd, salt)
            && RecordOf(h.w, user).value.expiry == Some(h.w.now + 2_592_000_000)
  {
    hide SetHset, Holds;
    assert Smooth(env.tape(w.pos)) && Smooth(env.tape(w.pos + 1)) && Smooth(env.tape(w.pos + 2));
    var k := OkKey(Signup, FlagIp(env.form, rq));
    SmoothFlagPut(env.tape, w, k, user);
    var flag := SetHset(env.tape, w, IpCountDb(Signup), SIGNUP_OK_TTL, SetEx(k, "1", SIGNUP_OK_TTL));
    SmoothRecordPut(env.tape, flag.w, user, passwd, salt);
  }

  lemma TailIsNoDuplicate(env: Env, w: World, rq: Request, user: string, passwd: string, salt: string)
    ensures SignupTail(env, w, rq, user, passwd, salt).rt != 211100
  {
    hide SetHset, DecText;
  }

  /** A signup that the guard lets through, with a flag whose text is cut. */
  lemma CutSignup(env: Env, w: World, rq: Request, user: string, passwd: string, salt: string)
    requires Smooth(env.tape(w.pos)) && Smooth(env.tape(w.pos + 1)) && FlagCut(env.form, rq)
    requires !(env.form.guardOnRecord
               && Live(w.store, SALT_LOGIN_DB, UserKey(Login, user), w.now + env.tape(w.pos).wait))
    requires At(w.store, SALT_LOGIN_DB, UserKey(Signup, user)).None?
    ensures var h := CheckRecord(env, w, Signup, rq, user, passwd, salt);
            h.rt == 211101 && RecordOf(h.w, user) == RecordOf(w, user)
  {
    hide SignupTail, LoginTail, FlagCut;
    var found := GetInt(env.tape, w, SALT_LOGIN_DB, Exists(GuardKey(env.form, Signup, user)));
    assert found.w.store == w.store && found.w.pos == w.pos + 1 && found.rt == 0;
    CutSignupTail(env, found.w, rq, user, passwd, salt);
  }

  /** What a signup behind a valid session does, when the store answers: it is refused as
      a duplicate exactly when the guard looks at the record and the record is alive;
      otherwise it succeeds with a plain flag text, and the record holds the new data whatever
      was there before; with a flag text that is cut it fails and changes no record. */
  lemma SignupVerdict(env: Env, w: World, rq: Request, user: string, passwd: string, salt: string)
    requires SmoothFor(env.tape, w.pos, 4)
    requires RecordShaped(RecordOf(w, user)) && At(w.store, SALT_LOGIN_DB, UserKey(Signup, user)).None?
    requires var hsetTime := w.now + env.tape(w.pos).wait + env.tape(w.pos + 1).wait + env.tape(w.pos + 2).wait;
             NotInBetween(RecordOf(w, user), hsetTime, hsetTime + env.tape(w.pos + 3).wait)
    ensures var h := CheckRecord(env, w, Signup, rq, user, passwd, salt);
            var live := Live(w.store, SALT_LOGIN_DB, UserKey(Login, user), w.now + env.tape(w.pos).wait);
            && (h.rt == 211100 <==> env.form.guardOnRecord && live)
            && (h.rt == 211100 ==> RecordOf(h.w, user) == RecordOf(w, user))
            && (h.rt != 211100 && FlagCut(env.form, rq) ==>
                  h.rt == 211101 && RecordOf(h.w, user) == RecordOf(w, user))
            && (h.rt != 211100 && FlagPlain(env.form, rq) ==>
                  && h.rt == 0 && h.sent == [Welcome] && Holds(RecordOf(h.w, user), passwd, salt)
                  && RecordOf(h.w, user).value.expiry == Some(h.w.now + 2_592_000_000))
  {
    hide SignupTail, LoginTail, FlagPlain, FlagCut;
    assert Smooth(env.tape(w.pos));
    assert forall i :: w.pos + 1 <= i < w.pos + 4 ==> Smooth(env.tape(i));
    var guard := Exists(GuardKey(env.form, Signup, user));
    var found := GetInt(env.tape, w, SALT_LOGIN_DB, guard);
    assert found.w.store == w.store && found.w.pos == w.pos + 1 && found.rt == 0;
    TailIsNoDuplicate(env, found.w, rq, user, passwd, salt);
    if FlagPlain(env.form, rq) { SmoothSignupTail(env, found.w, rq, user, passwd, salt); }
    if FlagCut(env.form, rq) { CutSignupTail(env, found.w, rq, user, passwd, salt); }
  }

  /** Where the guard does not see the record, the four commands of a signup are all sent. */
  lemma SignupTakes(env: Env, w: World, rq: Request, user: string, passwd: string, salt: string)
    requires SmoothFor(env.tape, w.pos, 4) && !env.form.guardOnRecord && FlagPlain(env.form, rq)
    requires RecordShaped(RecordOf(w, user)) && At(w.store, SALT_LOGIN_DB, UserKey(Signup, user)).None?
    ensures CheckRecord(env, w, Signup, rq, user, passwd, salt).w.now
         == w.now + env.tape(w.pos).wait + env.tape(w.pos + 1).wait + env.tape(w.pos + 2).wait
             + env.tape(w.pos + 3).wait
  {
    hide SignupTail, LoginTail;
    assert forall i :: w.pos + 1 <= i < w.pos + 4 ==> Smooth(env.tape(i));
    assert Smooth(env.tape(w.pos));
    var found := GetInt(env.tape, w, SALT_LOGIN_DB, Exists(UserKey(Signup, user)));
    assert found.w.store == w.store && found.w.pos == w.pos + 1 && found.rt == 0 && found.n == 0;
    TailTakes(env, found.w, rq, user, passwd, salt);
  }

  lemma TailTakes(env: Env, w: World, rq: Request, user: string, passwd: string, salt: string)
    requires SmoothFor(env.tape, w.pos, 3) && RecordShaped(RecordOf(w, user)) && FlagPlain(env.form, rq)
    ensures SignupTail(env, w, rq, user, passwd, salt).w.now
         == w.now + env.tape(w.pos).wait + env.tape(w.pos + 1).wait + env.tape(w.pos + 2).wait
  {
    hide SetHset, NewRecord;
    assert Smooth(env.tape(w.pos)) && Smooth(env.tape(w.pos + 1));
    var k := OkKey(Signup, FlagIp(env.form, rq));
    SmoothFlagPut(env.tape, w, k, user);
    var flag := SetHset(env.tape, w, IpCountDb(Signup), SIGNUP_OK_TTL, SetEx(k, "1", SIGNUP_OK_TTL));
    RecordPutTakes(env.tape, flag.w, user, passwd, salt);
  }

  lemma RecordPutTakes(tape: Tape, w: World, user: string, passwd: string, salt: string)
    requires Smooth(tape(w.pos)) && RecordShaped(RecordOf(w, user))
    ensures var cmd := HSet(UserKey(Login, user), NewRecord(passwd, salt));
            SetHset(tape, w, SALT_LOGIN_DB, NEW_USER_TTL, cmd).w.now == w.now + tape(w.pos).wait + tape(w.pos + 1).wait
  {
    hide NewRecord;
  }

  /** Where it does, and the record is alive, the signup is refused and changes nothing. */
  lemma SignupRefused(env: Env, w: World, rq: Request, user: string, passwd: string, salt: string, old_: Entry)
    requires Smooth(env.tape(w.pos)) && env.form.guardOnRecord && RecordOf(w, user) == Some(old_)
    requires AliveAt(old_, CheckRecord(env, w, Signup, rq, user, passwd, salt).w.now)
    ensures var h := CheckRecord(env, w, Signup, rq, user, passwd, salt);
            h.rt == 211100 && RecordOf(h.w, user) == Some(old_)
  {
    hide SignupTail, LoginTail;
    var found := GetInt(env.tape, w, SALT_LOGIN_DB, Exists(UserKey(Login, user)));
    SignupTailTime(env, found.w, rq, user, passwd, salt);
  }
}
