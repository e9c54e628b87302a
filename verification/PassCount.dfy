/** The gate calls of one address that return 0, counted over whole runs and under any
    failures (src/redis_check_ip.c, src/redis_increment.c). */
module PassCount {
  import opened Common
  import opened RedisStore
  import opened HttpText
  import opened Hashing
  import opened PostPath
  import opened Protocol
  import opened History
  import opened GateHistory
  import opened WindowBound

  /** How many gate calls of (ty, ip) in a run return 0 within 3610 s from `start`. */
  function PassedCalls(env: Env, w: World, rqs: seq<Request>, ty: PostType, ip: string, start: int): nat
    decreases |rqs|
  {
    if rqs == [] then 0
    else
      var gate := CheckIp(env.tape, w, IpCountDb(ty), ty, ip);
      (if CallsGate(rqs[0], ty, ip) && gate.rt == 0 && start <= gate.w.now < start + WINDOW then 1 else 0)
      + PassedCalls(env, Serve(env, w, rqs[0]).w, rqs[1..], ty, ip, start)
  }

  // ----- The history records every pass -----

  predicate PassIn(e: Event, start: int) {
    e.GatePassed? && start <= e.at < start + WINDOW
  }

  function AnyPasses(trace: seq<Event>, start: int): nat {
    if trace == [] then 0
    else AnyPasses(trace[..|trace| - 1], start) + if PassIn(trace[|trace| - 1], start) then 1 else 0
  }

  /** The history has grown by executed commands only. */
  ghost predicate OnlyRan(before: seq<Event>, after: seq<Event>) {
    before <= after && forall i :: |before| <= i < |after| ==> after[i].Ran?
  }

  lemma OnlyRanChains(a: seq<Event>, b: seq<Event>, c: seq<Event>)
    requires OnlyRan(a, b) && OnlyRan(b, c)
    ensures OnlyRan(a, c)
  {
  }

  lemma {:induction false} OnlyRanCounts(before: seq<Event>, after: seq<Event>, start: int)
    requires OnlyRan(before, after)
    ensures AnyPasses(after, start) == AnyPasses(before, start)
    decreases |after|
  {
    if |after| > |before| {
      OnlyRanCounts(before, after[..|after| - 1], start);
    } else {
      assert after == before;
    }
  }

  lemma SameIsOnlyRan(w: World, w': World, ty: PostType, ip: string)
    requires Untouched(w, w', IpCountDb(ty), FailedKey(ty, ip))
    ensures OnlyRan(CounterTrace(w, ty, ip), CounterTrace(w', ty, ip))
  {
  }

  lemma HelperOnlyRan(tape: Tape, w: World, ty: PostType, ip: string, cmd: Cmd)
    requires CounterCmd(cmd, ty, ip)
    ensures OnlyRan(CounterTrace(w, ty, ip), CounterTrace(GetInt(tape, w, IpCountDb(ty), cmd).w, ty, ip))
  {
    hide Trace, CounterTrace, Effect, TrueReply, Settle, Truthful;
    CounterTraceStep(w, Issue(tape, w, IpCountDb(ty), cmd).0, ty, ip, cmd);
  }

  lemma IncrementOnlyRan(tape: Tape, w: World, ty: PostType, ip: string)
    ensures OnlyRan(CounterTrace(w, ty, ip),
                    CounterTrace(Increment(tape, w, IpCountDb(ty), SIGNUP_FAILED_TTL, FailedKey(ty, ip)).w, ty, ip))
  {
    hide GetInt, CounterTrace, OnlyRan;
    var (w1, up) := Connect(tape, w, IpCountDb(ty));
    SameIsOnlyRan(w, w1, ty, ip);
    if up {
      HelperOnlyRan(tape, w1, ty, ip, Incr(FailedKey(ty, ip)));
      var incr := GetInt(tape, w1, IpCountDb(ty), Incr(FailedKey(ty, ip)));
      OnlyRanChains(CounterTrace(w, ty, ip), CounterTrace(w1, ty, ip), CounterTrace(incr.w, ty, ip));
      if incr.rt == 0 {
        HelperOnlyRan(tape, incr.w, ty, ip, Expire(FailedKey(ty, ip), SIGNUP_FAILED_TTL));
        var expire := GetInt(tape, incr.w, IpCountDb(ty), Expire(FailedKey(ty, ip), SIGNUP_FAILED_TTL));
        OnlyRanChains(CounterTrace(w, ty, ip), CounterTrace(incr.w, ty, ip), CounterTrace(expire.w, ty, ip));
      }
    }
  }

  /** One gate call adds commands, and one pass at its end exactly when it returns 0. */
  lemma GateTrace(tape: Tape, w: World, ty: PostType, ip: string)
    ensures var gate := CheckIp(tape, w, IpCountDb(ty), ty, ip);
            var before, after := CounterTrace(w, ty, ip), CounterTrace(gate.w, ty, ip);
            if gate.rt != 0 then OnlyRan(before, after)
            else
              var n := |after| - 1;
              && n >= 0 && gate.w.log != [] && OnlyRan(before, after[..n])
              && after[n] == gate.w.log[|gate.w.log| - 1] && after[n].GatePassed? && after[n].at == gate.w.now
  {
    hide GetInt, Increment, OnlyRan, CounterTrace;
    var db := IpCountDb(ty);
    var (w1, up) := Connect(tape, w, db);
    SameIsOnlyRan(w, w1, ty, ip);
    if up {
      var flag := GetInt(tape, w1, db, Exists(OkKey(ty, ip)));
      GetIntFrame(tape, w1, db, Exists(OkKey(ty, ip)), db, FailedKey(ty, ip));
      SameIsOnlyRan(w1, flag.w, ty, ip);
      OnlyRanChains(CounterTrace(w, ty, ip), CounterTrace(w1, ty, ip), CounterTrace(flag.w, ty, ip));
      var count := Increment(tape, flag.w, db, SIGNUP_FAILED_TTL, FailedKey(ty, ip));
      IncrementOnlyRan(tape, flag.w, ty, ip);
      OnlyRanChains(CounterTrace(w, ty, ip), CounterTrace(flag.w, ty, ip), CounterTrace(count.w, ty, ip));
      PassIsLast(count.w, ty, ip, count.n, count.armed);
    }
  }

  lemma PassIsLast(w: World, ty: PostType, ip: string, n: int, armed: bool)
    ensures CounterTrace(Passed(w, ty, ip, n, armed), ty, ip)
         == CounterTrace(w, ty, ip) + [GatePassed(w.now, ty, ip, n, armed)]
  {
    TraceSnoc(w.log, GatePassed(w.now, ty, ip, n, armed), IpCountDb(ty), FailedKey(ty, ip));
  }

  /** What a request leaves of its gate call's history. */
  lemma ServeTrace(env: Env, w: World, rq: Request, ty: PostType, ip: string)
    ensures CounterTrace(Serve(env, w, rq).w, ty, ip)
         == if CallsGate(rq, ty, ip) then CounterTrace(CheckIp(env.tape, w, IpCountDb(ty), ty, ip).w, ty, ip)
            else CounterTrace(w, ty, ip)
  {
    hide CheckIp, AfterGate, Untouched, Spares, CounterTrace;
    if CallsGate(rq, ty, ip) {
      var gate := CheckIp(env.tape, w, IpCountDb(ty), ty, ip);
      BehindGateFrame(env, gate.w, ty, rq, IpCountDb(ty), FailedKey(ty, ip));
      SameTrace(gate.w, AfterGate(env, gate.w, ty, rq).w, ty, ip);
    } else {
      CounterKeyIsPrivate(env.form, rq, ty, ip);
      ServeFrame(env, w, rq, IpCountDb(ty), FailedKey(ty, ip));
      SameTrace(w, Serve(env, w, rq).w, ty, ip);
    }
  }

  lemma ServeCounts(env: Env, w: World, rq: Request, ty: PostType, ip: string, start: int)
    ensures var gate := CheckIp(env.tape, w, IpCountDb(ty), ty, ip);
            AnyPasses(CounterTrace(Serve(env, w, rq).w, ty, ip), start)
            == AnyPasses(CounterTrace(w, ty, ip), start)
               + if CallsGate(rq, ty, ip) && gate.rt == 0 && start <= gate.w.now < start + WINDOW then 1 else 0
  {
    hide Serve, CheckIp, CounterTrace, OnlyRan, CallsGate;
    ServeTrace(env, w, rq, ty, ip);
    var before, gate := CounterTrace(w, ty, ip), CheckIp(env.tape, w, IpCountDb(ty), ty, ip);
    var after := CounterTrace(gate.w, ty, ip);
    GateTrace(env.tape, w, ty, ip);
    if CallsGate(rq, ty, ip) {
      OnlyRanCounts(before, if gate.rt != 0 then after else after[..|after| - 1], start);
    }
  }

  /** The passes in the history are the gate calls that returned 0, no more and no fewer. */
  lemma {:induction false} HistoryCountsCalls(env: Env, w: World, rqs: seq<Request>, ty: PostType, ip: string,
                                              start: int)
    ensures AnyPasses(CounterTrace(Run(env, w, rqs), ty, ip), start)
         == AnyPasses(CounterTrace(w, ty, ip), start) + PassedCalls(env, w, rqs, ty, ip, start)
    decreases |rqs|
  {
    hide Serve, CheckIp, CounterTrace, AnyPasses, CallsGate;
    if rqs != [] {
      ServeCounts(env, w, rqs[0], ty, ip, start);
      HistoryCountsCalls(env, Serve(env, w, rqs[0]).w, rqs[1..], ty, ip, start);
    }
  }

  // ----- Passes whose EXPIRE came too late -----

  /** The counter's expiry, if it has one, lies outside the 3610 s after `at`. */
  ghost predicate ExpiryClear(entry: Option<Entry>, at: int) {
    entry.Some? && entry.value.expiry.Some? ==>
        entry.value.expiry.value <= at || at + WINDOW <= entry.value.expiry.value
  }

  /** Before an unarmed pass no other pass for 3610 s. */
  ghost predicate LoneUnarmed(trace: seq<Event>) {
    forall i, j :: 0 <= i < j < |trace| && trace[i].GatePassed? && trace[j].GatePassed? && !trace[j].armed ==>
      trace[i].at + WINDOW <= trace[j].at
  }

  ghost predicate AllClear(w: World, entry: Option<Entry>, trace: seq<Event>) {
    forall i :: 0 <= i < |trace| && trace[i].GatePassed? ==> trace[i].at <= w.now && ExpiryClear(entry, trace[i].at)
  }

  ghost predicate SpaceInv(w: World, ty: PostType, ip: string) {
    AllClear(w, CounterEntry(w, ty, ip), CounterTrace(w, ty, ip)) && LoneUnarmed(CounterTrace(w, ty, ip))
  }

  lemma ClearStays(w: World, w': World, ty: PostType, ip: string, cmd: Cmd, at: int)
    requires CounterCmd(cmd, ty, ip) && Stepped(w, w', IpCountDb(ty), cmd)
    requires at <= w.now && ExpiryClear(CounterEntry(w, ty, ip), at)
    ensures ExpiryClear(CounterEntry(w', ty, ip), at)
  {
  }

  lemma SpaceStep(w: World, w': World, ty: PostType, ip: string, cmd: Cmd)
    requires SpaceInv(w, ty, ip) && CounterCmd(cmd, ty, ip) && Stepped(w, w', IpCountDb(ty), cmd)
    ensures SpaceInv(w', ty, ip)
  {
    hide CounterEntry, CounterTrace, Effect, ExpiryClear;
    CounterTraceStep(w, w', ty, ip, cmd);
    var trace := CounterTrace(w, ty, ip);
    forall i | 0 <= i < |trace| && trace[i].GatePassed? ensures ExpiryClear(CounterEntry(w', ty, ip), trace[i].at) {
      ClearStays(w, w', ty, ip, cmd, trace[i].at);
    }
  }

  lemma UntouchedSpace(w: World, w': World, ty: PostType, ip: string)
    requires SpaceInv(w, ty, ip) && w.now <= w'.now && Untouched(w, w', IpCountDb(ty), FailedKey(ty, ip))
    ensures SpaceInv(w', ty, ip)
  {
    hide Trace;
  }

  /** After an answered INCR the counter is alive. */
  lemma IncrLives(tape: Tape, w: World, ty: PostType, ip: string)
    requires GetInt(tape, w, IpCountDb(ty), Incr(FailedKey(ty, ip))).rt == 0
    ensures var incr := GetInt(tape, w, IpCountDb(ty), Incr(FailedKey(ty, ip)));
            var entry := CounterEntry(incr.w, ty, ip);
            entry.Some? && (entry.value.expiry.Some? ==> incr.w.now < entry.value.expiry.value)
  {
    hide Settle;
  }

  /** An answered EXPIRE either moves the expiry 3610 s away or finds it passed. */
  lemma ExpireDecides(tape: Tape, w: World, ty: PostType, ip: string)
    requires CounterEntry(w, ty, ip).Some?
    requires GetInt(tape, w, IpCountDb(ty), Expire(FailedKey(ty, ip), SIGNUP_FAILED_TTL)).rt == 0
    ensures var expire := GetInt(tape, w, IpCountDb(ty), Expire(FailedKey(ty, ip), SIGNUP_FAILED_TTL));
            var entry := CounterEntry(expire.w, ty, ip);
            && entry.Some? && entry.value.expiry.Some?
            && (expire.n == 1 ==> entry.value.expiry.value == expire.w.now + WINDOW)
            && (expire.n != 1 ==> entry == CounterEntry(w, ty, ip) && entry.value.expiry.value <= expire.w.now)
  {
    hide Settle;
  }

  lemma GetIntSpaced(tape: Tape, w: World, ty: PostType, ip: string, cmd: Cmd)
    requires SpaceInv(w, ty, ip) && CounterCmd(cmd, ty, ip)
    ensures SpaceInv(GetInt(tape, w, IpCountDb(ty), cmd).w, ty, ip)
  {
    hide SpaceInv, Effect, TrueReply, Settle, Truthful;
    SpaceStep(w, Issue(tape, w, IpCountDb(ty), cmd).0, ty, ip, cmd);
  }

  /** All earlier passes lie at least 3610 s back. */
  ghost predicate AllOld(trace: seq<Event>, now: int) {
    forall i :: 0 <= i < |trace| && trace[i].GatePassed? ==> trace[i].at + WINDOW <= now
  }

  /** A late EXPIRE means that the counter's expiry has just gone by, and it was at least
      3610 s behind every earlier pass. */
  lemma LateMeansOld(w: World, now: int, ty: PostType, ip: string)
    requires SpaceInv(w, ty, ip) && CounterEntry(w, ty, ip).Some? && CounterEntry(w, ty, ip).value.expiry.Some?
    requires w.now < CounterEntry(w, ty, ip).value.expiry.value <= now
    ensures AllOld(CounterTrace(w, ty, ip), now)
  {
    hide CounterTrace, CounterEntry;
    var trace := CounterTrace(w, ty, ip);
    forall i | 0 <= i < |trace| && trace[i].GatePassed? ensures trace[i].at + WINDOW <= now {
      assert ExpiryClear(CounterEntry(w, ty, ip), trace[i].at);
    }
  }

  lemma OldStays(before: seq<Event>, after: seq<Event>, now: int)
    requires AllOld(before, now) && OnlyRan(before, after)
    ensures AllOld(after, now)
  {
  }

  lemma IncrementSpaces(tape: Tape, w: World, ty: PostType, ip: string)
    requires SpaceInv(w, ty, ip)
    ensures var count := Increment(tape, w, IpCountDb(ty), SIGNUP_FAILED_TTL, FailedKey(ty, ip));
            && SpaceInv(count.w, ty, ip)
            && (count.rt == 0 ==>
                  && ExpiryClear(CounterEntry(count.w, ty, ip), count.w.now)
                  && (!count.armed ==> AllOld(CounterTrace(count.w, ty, ip), count.w.now)))
  {
    hide GetInt, SpaceInv, CounterTrace, CounterEntry, OnlyRan, AllOld;
    var (w1, up) := Connect(tape, w, IpCountDb(ty));
    UntouchedSpace(w, w1, ty, ip);
    if up {
      GetIntSpaced(tape, w1, ty, ip, Incr(FailedKey(ty, ip)));
      var incr := GetInt(tape, w1, IpCountDb(ty), Incr(FailedKey(ty, ip)));
      if incr.rt == 0 {
        IncrLives(tape, w1, ty, ip);
        var cmd := Expire(FailedKey(ty, ip), SIGNUP_FAILED_TTL);
        var expire := GetInt(tape, incr.w, IpCountDb(ty), cmd);
        GetIntSpaced(tape, incr.w, ty, ip, cmd);
        if expire.rt == 0 {
          ExpireDecides(tape, incr.w, ty, ip);
          if expire.n != 1 {
            LateMeansOld(incr.w, expire.w.now, ty, ip);
            HelperOnlyRan(tape, incr.w, ty, ip, cmd);
            OldStays(CounterTrace(incr.w, ty, ip), CounterTrace(expire.w, ty, ip), expire.w.now);
          }
        }
      }
    }
  }

  lemma PassSpaces(w: World, ty: PostType, ip: string, n: int, armed: bool)
    requires SpaceInv(w, ty, ip) && ExpiryClear(CounterEntry(w, ty, ip), w.now)
    requires !armed ==> AllOld(CounterTrace(w, ty, ip), w.now)
    ensures SpaceInv(Passed(w, ty, ip, n, armed), ty, ip)
  {
    hide CounterTrace, ExpiryClear;
    PassIsLast(w, ty, ip, n, armed);
  }

  lemma GateKeepsSpace(tape: Tape, w: World, ty: PostType, ip: string)
    requires SpaceInv(w, ty, ip)
    ensures SpaceInv(CheckIp(tape, w, IpCountDb(ty), ty, ip).w, ty, ip)
  {
    hide GetInt, Increment, SpaceInv, Passed, ExpiryClear, CounterTrace, CounterEntry, AllOld;
    var db := IpCountDb(ty);
    var (w1, up) := Connect(tape, w, db);
    UntouchedSpace(w, w1, ty, ip);
    if up {
      var flag := GetInt(tape, w1, db, Exists(OkKey(ty, ip)));
      GetIntFrame(tape, w1, db, Exists(OkKey(ty, ip)), db, FailedKey(ty, ip));
      UntouchedSpace(w1, flag.w, ty, ip);
      IncrementSpaces(tape, flag.w, ty, ip);
      var count := Increment(tape, flag.w, db, SIGNUP_FAILED_TTL, FailedKey(ty, ip));
      if count.rt == 0 { PassSpaces(count.w, ty, ip, count.n, count.armed); }
    }
  }

  lemma ServeKeepsSpace(env: Env, w: World, rq: Request, ty: PostType, ip: string)
    requires SpaceInv(w, ty, ip)
    ensures SpaceInv(Serve(env, w, rq).w, ty, ip)
  {
    hide AfterGate, CheckIp, SpaceInv, Untouched, Spares;
    var w' := Serve(env, w, rq).w;
    if CallsGate(rq, ty, ip) {
      GateKeepsSpace(env.tape, w, ty, ip);
      var gate := CheckIp(env.tape, w, IpCountDb(ty), ty, ip);
      if gate.rt == 0 {
        BehindGateFrame(env, gate.w, ty, rq, IpCountDb(ty), FailedKey(ty, ip));
        UntouchedSpace(gate.w, w', ty, ip);
      }
    } else {
      CounterKeyIsPrivate(env.form, rq, ty, ip);
      ServeFrame(env, w, rq, IpCountDb(ty), FailedKey(ty, ip));
      UntouchedSpace(w, w', ty, ip);
    }
  }

  /** In every run, under any failures, an unarmed pass has no other pass in the 3610 s
      before it. */
  lemma {:induction false} RunKeepsSpace(env: Env, w: World, rqs: seq<Request>, ty: PostType, ip: string)
    requires SpaceInv(w, ty, ip)
    ensures SpaceInv(Run(env, w, rqs), ty, ip)
    decreases |rqs|
  {
    hide Serve, SpaceInv;
    if rqs != [] {
      ServeKeepsSpace(env, w, rqs[0], ty, ip);
      RunKeepsSpace(env, Serve(env, w, rqs[0]).w, rqs[1..], ty, ip);
    }
  }

  // ----- The bounds -----

  /** Unarmed passes of a window. */
  function UnarmedIn(trace: seq<Event>, start: int): nat {
    if trace == [] then 0
    else
      var e := trace[|trace| - 1];
      UnarmedIn(trace[..|trace| - 1], start) + if PassIn(e, start) && !e.armed then 1 else 0
  }

  lemma {:induction false} PassesSplit(trace: seq<Event>, start: int)
    ensures AnyPasses(trace, start) == PassesIn(trace, start) + UnarmedIn(trace, start)
    decreases |trace|
  {
    if trace != [] { PassesSplit(trace[..|trace| - 1], start); }
  }

  lemma {:induction false} NoUnarmedBefore(trace: seq<Event>, start: int, now: int)
    requires AllOld(trace, now) && now < start + WINDOW
    ensures UnarmedIn(trace, start) == 0
    decreases |trace|
  {
    if trace != [] { NoUnarmedBefore(trace[..|trace| - 1], start, now); }
  }

  lemma {:induction false} OneUnarmed(trace: seq<Event>, start: int)
    requires LoneUnarmed(trace)
    ensures UnarmedIn(trace, start) <= 1
    decreases |trace|
  {
    if trace != [] {
      var n := |trace| - 1;
      if PassIn(trace[n], start) && !trace[n].armed {
        NoUnarmedBefore(trace[..n], start, trace[n].at);
      } else {
        OneUnarmed(trace[..n], start);
      }
    }
  }

  /** Without any assumption. In every run of one worker, whatever fails and however long
      anything takes, at most one gate call more than the limit returns 0 within 3610 s. */
  lemma CallsBounded(env: Env, rqs: seq<Request>, ty: PostType, ip: string, start: int)
    ensures PassedCalls(env, FRESH, rqs, ty, ip, start) <= match ty case Signup => 6 case Login => 11 case Admin => 3
  {
    hide Run, PassedCalls;
    var trace := CounterTrace(Run(env, FRESH, rqs), ty, ip);
    HistoryCountsCalls(env, FRESH, rqs, ty, ip, start);
    assert SpaceInv(FRESH, ty, ip);
    RunKeepsSpace(env, FRESH, rqs, ty, ip);
    OneUnarmed(trace, start);
    PassesSplit(trace, start);
    WindowBounded(env, rqs, ty, ip, start);
  }

  /** The limit is exceeded exactly in a window that holds a full count of armed passes and one
      unarmed one. */
  lemma ExceededExactly(env: Env, rqs: seq<Request>, ty: PostType, ip: string, start: int)
    ensures var trace := CounterTrace(Run(env, FRESH, rqs), ty, ip);
            var limit := match ty case Signup => 5 case Login => 10 case Admin => 2;
            PassedCalls(env, FRESH, rqs, ty, ip, start) > limit
            <==> PassesIn(trace, start) == limit && UnarmedIn(trace, start) == 1
  {
    hide Run, PassedCalls;
    var trace := CounterTrace(Run(env, FRESH, rqs), ty, ip);
    HistoryCountsCalls(env, FRESH, rqs, ty, ip, start);
    assert SpaceInv(FRESH, ty, ip);
    RunKeepsSpace(env, FRESH, rqs, ty, ip);
    OneUnarmed(trace, start);
    PassesSplit(trace, start);
    WindowBounded(env, rqs, ty, ip, start);
  }

  /** No time passes between INCR and EXPIRE in the gate calls of (ty, ip). */
  ghost predicate PromptExpires(env: Env, w: World, rqs: seq<Request>, ty: PostType, ip: string)
    decreases |rqs|
  {
    rqs == [] ||
    (&& (CallsGate(rqs[0], ty, ip) ==> env.tape(w.pos + 4).wait == 0)
     && PromptExpires(env, Serve(env, w, rqs[0]).w, rqs[1..], ty, ip))
  }

  predicate AllArmed(trace: seq<Event>) {
    forall i :: 0 <= i < |trace| && trace[i].GatePassed? ==> trace[i].armed
  }

  lemma PassTicks(tape: Tape, w: World, ty: PostType, ip: string)
    requires CheckIp(tape, w, IpCountDb(ty), ty, ip).rt == 0
    ensures var flag := GetInt(tape, Connect(tape, w, IpCountDb(ty)).0, IpCountDb(ty), Exists(OkKey(ty, ip)));
            var incr := GetInt(tape, Connect(tape, flag.w, IpCountDb(ty)).0, IpCountDb(ty), Incr(FailedKey(ty, ip)));
            incr.w.pos == w.pos + 4
  {
    hide Effect, TrueReply, Settle, Truthful;
  }

  lemma GateArms(tape: Tape, w: World, ty: PostType, ip: string)
    requires CheckIp(tape, w, IpCountDb(ty), ty, ip).rt == 0 && tape(w.pos + 4).wait == 0
    ensures var log := CheckIp(tape, w, IpCountDb(ty), ty, ip).w.log;
            log != [] && log[|log| - 1].GatePassed? && log[|log| - 1].armed
  {
    hide CheckIp, GetInt, Connect, Live, OnlyRan, CounterTrace;
    GateTrace(tape, w, ty, ip);
    PassTicks(tape, w, ty, ip);
    ArmedExactly(tape, w, IpCountDb(ty), ty, ip);
  }

  lemma ArmedGrows(before: seq<Event>, after: seq<Event>)
    requires AllArmed(before) && OnlyRan(before, after)
    ensures AllArmed(after)
    ensures forall e: Event :: e.GatePassed? && e.armed ==> AllArmed(after + [e])
  {
  }

  lemma ServeArms(env: Env, w: World, rq: Request, ty: PostType, ip: string)
    requires AllArmed(CounterTrace(w, ty, ip)) && (CallsGate(rq, ty, ip) ==> env.tape(w.pos + 4).wait == 0)
    ensures AllArmed(CounterTrace(Serve(env, w, rq).w, ty, ip))
  {
    hide Serve, CheckIp, CounterTrace, AllArmed, OnlyRan, CallsGate;
    ServeTrace(env, w, rq, ty, ip);
    if CallsGate(rq, ty, ip) {
      var gate := CheckIp(env.tape, w, IpCountDb(ty), ty, ip);
      var after := CounterTrace(gate.w, ty, ip);
      GateTrace(env.tape, w, ty, ip);
      if gate.rt == 0 {
        GateArms(env.tape, w, ty, ip);
        ArmedGrows(CounterTrace(w, ty, ip), after[..|after| - 1]);
        assert after == after[..|after| - 1] + [after[|after| - 1]];
      } else {
        ArmedGrows(CounterTrace(w, ty, ip), after);
      }
    }
  }

  lemma {:induction false} RunArms(env: Env, w: World, rqs: seq<Request>, ty: PostType, ip: string)
    requires AllArmed(CounterTrace(w, ty, ip)) && PromptExpires(env, w, rqs, ty, ip)
    ensures AllArmed(CounterTrace(Run(env, w, rqs), ty, ip))
    decreases |rqs|
  {
    hide Serve, CounterTrace, AllArmed, CallsGate;
    if rqs != [] {
      ServeArms(env, w, rqs[0], ty, ip);
      RunArms(env, Serve(env, w, rqs[0]).w, rqs[1..], ty, ip);
    }
  }

  lemma {:induction false} ArmedHasNoUnarmed(trace: seq<Event>, start: int)
    requires AllArmed(trace)
    ensures UnarmedIn(trace, start) == 0
    decreases |trace|
  {
    if trace != [] { ArmedHasNoUnarmed(trace[..|trace| - 1], start); }
  }

  /** With INCR and EXPIRE in one instant, whatever else fails: at most 5 signup, 10 login
      or 2 admin gate calls of one address return 0 within 3610 s. */
  lemma PromptCallsBounded(env: Env, rqs: seq<Request>, ty: PostType, ip: string, start: int)
    requires PromptExpires(env, FRESH, rqs, ty, ip)
    ensures PassedCalls(env, FRESH, rqs, ty, ip, start) <= match ty case Signup => 5 case Login => 10 case Admin => 2
  {
    hide Run, PassedCalls, PromptExpires;
    var trace := CounterTrace(Run(env, FRESH, rqs), ty, ip);
    HistoryCountsCalls(env, FRESH, rqs, ty, ip, start);
    RunArms(env, FRESH, rqs, ty, ip);
    ArmedHasNoUnarmed(trace, start);
    PassesSplit(trace, start);
    WindowBounded(env, rqs, ty, ip, start);
  }

  // ----- The bound of one more is met -----

  /** The counter as the next call finds it. */
  function NextCount(w: World, ty: PostType, ip: string): int {
    var entry := CounterEntry(w, ty, ip);
    var alive := Live(w.store, IpCountDb(ty), FailedKey(ty, ip), w.now);
    if alive && entry.value.value.Count? then entry.value.value.n + 1 else 1
  }

  lemma InstantIncr(tape: Tape, w: World, ty: PostType, ip: string)
    requires IpText(ip) && Smooth(tape(w.pos)) && tape(w.pos).wait == 0 && Counting(CounterEntry(w, ty, ip))
    ensures var incr := GetInt(tape, w, IpCountDb(ty), Incr(FailedKey(ty, ip)));
            var entry := CounterEntry(incr.w, ty, ip);
            && incr.rt == 0 && incr.n == NextCount(w, ty, ip) && incr.w.pos == w.pos + 1 && incr.w.now == w.now
            && entry.Some? && entry.value.value == Count(incr.n)
            && Live(incr.w.store, IpCountDb(ty), FailedKey(ty, ip), w.now)
            && At(incr.w.store, IpCountDb(ty), OkKey(ty, ip)) == At(w.store, IpCountDb(ty), OkKey(ty, ip))
  {
  }

  lemma InstantExpire(tape: Tape, w: World, ty: PostType, ip: string)
    requires IpText(ip) && Smooth(tape(w.pos)) && tape(w.pos).wait == 0 && CounterEntry(w, ty, ip).Some?
    requires Live(w.store, IpCountDb(ty), FailedKey(ty, ip), w.now)
    ensures var expire := GetInt(tape, w, IpCountDb(ty), Expire(FailedKey(ty, ip), SIGNUP_FAILED_TTL));
            && expire.rt == 0 && expire.w.pos == w.pos + 1 && expire.w.now == w.now
            && CounterEntry(expire.w, ty, ip)
               == Some(Entry(CounterEntry(w, ty, ip).value.value, Some(w.now + WINDOW)))
            && At(expire.w.store, IpCountDb(ty), OkKey(ty, ip)) == At(w.store, IpCountDb(ty), OkKey(ty, ip))
  {
  }

  lemma InstantIncrement(tape: Tape, w: World, ty: PostType, ip: string)
    requires IpText(ip) && SmoothFor(tape, w.pos, 3) && Counting(CounterEntry(w, ty, ip))
    requires tape(w.pos).wait == 0 && tape(w.pos + 1).wait == 0 && tape(w.pos + 2).wait == 0
    ensures var count := Increment(tape, w, IpCountDb(ty), SIGNUP_FAILED_TTL, FailedKey(ty, ip));
            && count.rt == 0 && count.n == NextCount(w, ty, ip) && count.w.pos == w.pos + 3 && count.w.now == w.now
            && CounterEntry(count.w, ty, ip) == Some(Entry(Count(count.n), Some(w.now + WINDOW)))
            && At(count.w.store, IpCountDb(ty), OkKey(ty, ip)) == At(w.store, IpCountDb(ty), OkKey(ty, ip))
  {
    hide GetInt, Live, Counting;
    assert Smooth(tape(w.pos)) && Smooth(tape(w.pos + 1)) && Smooth(tape(w.pos + 2));
    var w1 := Connect(tape, w, IpCountDb(ty)).0;
    assert w1.store == w.store;
    InstantIncr(tape, w1, ty, ip);
    InstantExpire(tape, GetInt(tape, w1, IpCountDb(ty), Incr(FailedKey(ty, ip))).w, ty, ip);
  }

  ghost predicate Instant(tape: Tape, w: World) {
    SmoothFor(tape, w.pos, 5) && forall i :: w.pos <= i < w.pos + 5 ==> tape(i).wait == 0
  }

  /** A gate call that takes no time, from an address without flag and within its limit. */
  lemma InstantCall(tape: Tape, w: World, ty: PostType, ip: string)
    requires IpText(ip) && Instant(tape, w) && Counting(CounterEntry(w, ty, ip))
    requires NextCount(w, ty, ip) <= MaxAllowed(ty)
    requires At(w.store, IpCountDb(ty), OkKey(ty, ip)).None?
    ensures var gate := CheckIp(tape, w, IpCountDb(ty), ty, ip);
            && gate.rt == 0 && gate.w.pos == w.pos + 5 && gate.w.now == w.now
            && CounterEntry(gate.w, ty, ip) == Some(Entry(Count(NextCount(w, ty, ip)), Some(w.now + WINDOW)))
            && At(gate.w.store, IpCountDb(ty), OkKey(ty, ip)).None?
  {
    hide GetInt, Connect, Increment, Counting;
    assert LookTime(tape, w) == w.now;
    var flag := FlagLookup(tape, w, ty, ip);
    assert flag.w.store == w.store && CounterEntry(flag.w, ty, ip) == CounterEntry(w, ty, ip);
    InstantIncrement(tape, flag.w, ty, ip);
  }

  /** A request that reaches the gate and has no body behind it. */
  function Probe(ip: string): Request {
    Request("POST " + ("/" + TypeStr(Admin) + " " + ("HTTP/1.1" + "")), ip, "", None, "", "", true)
  }

  lemma ProbeCallsGate(env: Env, w: World, ip: string)
    ensures CallsGate(Probe(ip), Admin, ip)
    ensures Serve(env, w, Probe(ip)).w == CheckIp(env.tape, w, IpCountDb(Admin), Admin, ip).w
  {
    hide CheckIp, Classify, HeadEnd;
    ClientLineClassified("/", Admin, "");
  }

  /** Nothing fails; only the second call takes time: its INCR comes a millisecond before the
      counter expires, and its EXPIRE a millisecond after. */
  const LATE: Tape := i => Tick(if i == 8 then WINDOW - 1 else if i == 9 then 2 else 0, true, true, true, Answered)

  /** Three admin calls return 0 within 3610 s, one more than the limit: a late pass and a
      full new burst behind it. */
  lemma OneMoreHappens(form: Form, hash: Hasher, ip: string)
    requires IpText(ip)
    ensures PassedCalls(Env(form, hash, LATE), FRESH, [Probe(ip), Probe(ip), Probe(ip), Probe(ip)], Admin, ip,
                        WINDOW + 1)
         == 3
  {
    hide CheckIp, Serve, Counting, CallsGate, Live;
    var env, rq, db := Env(form, hash, LATE), Probe(ip), IpCountDb(Admin);
    var w1 := CheckIp(LATE, FRESH, db, Admin, ip).w;
    FirstCalls(ip);
    var w2 := CheckIp(LATE, w1, db, Admin, ip).w;
    var w3 := CheckIp(LATE, w2, db, Admin, ip).w;
    var w4 := CheckIp(LATE, w3, db, Admin, ip).w;
    NewBurst(w2, ip);
    ProbeCallsGate(env, FRESH, ip);
    ProbeCallsGate(env, w1, ip);
    ProbeCallsGate(env, w2, ip);
    ProbeCallsGate(env, w3, ip);
    assert PassedCalls(env, w4, [], Admin, ip, WINDOW + 1) == 0;
    assert [rq][1..] == [];
    assert PassedCalls(env, w3, [rq], Admin, ip, WINDOW + 1) == 1;
    assert [rq, rq][1..] == [rq];
    assert PassedCalls(env, w2, [rq, rq], Admin, ip, WINDOW + 1) == 2;
    assert [rq, rq, rq][1..] == [rq, rq];
    assert PassedCalls(env, w1, [rq, rq, rq], Admin, ip, WINDOW + 1) == 3;
    assert [rq, rq, rq, rq][1..] == [rq, rq, rq];
  }

  lemma FirstCalls(ip: string)
    requires IpText(ip)
    ensures var gate := CheckIp(LATE, FRESH, IpCountDb(Admin), Admin, ip);
            var late := CheckIp(LATE, gate.w, IpCountDb(Admin), Admin, ip);
            && gate.w.now == 0 && late.rt == 0 && late.w.now == WINDOW + 1 && late.w.pos == 10
            && !Live(late.w.store, IpCountDb(Admin), FailedKey(Admin, ip), late.w.now)
            && Counting(CounterEntry(late.w, Admin, ip))
            && At(late.w.store, IpCountDb(Admin), OkKey(Admin, ip)).None?
  {
    hide CheckIp;
    InstantCall(LATE, FRESH, Admin, ip);
    var w1 := CheckIp(LATE, FRESH, IpCountDb(Admin), Admin, ip).w;
    LateExpireDisarms(LATE, w1, Admin, ip, 1, WINDOW);
    FreshPasses(Admin, ip);
    GateKeepsPasses(LATE, FRESH, Admin, ip);
    GateKeepsPasses(LATE, w1, Admin, ip);
  }

  lemma NewBurst(w: World, ip: string)
    requires IpText(ip) && w.pos == 10 && w.now == WINDOW + 1
    requires !Live(w.store, IpCountDb(Admin), FailedKey(Admin, ip), w.now)
    requires Counting(CounterEntry(w, Admin, ip)) && At(w.store, IpCountDb(Admin), OkKey(Admin, ip)).None?
    ensures var gate := CheckIp(LATE, w, IpCountDb(Admin), Admin, ip);
            var next := CheckIp(LATE, gate.w, IpCountDb(Admin), Admin, ip);
            gate.rt == 0 && gate.w.now == WINDOW + 1 && next.rt == 0 && next.w.now == WINDOW + 1
  {
    hide CheckIp;
    InstantCall(LATE, w, Admin, ip);
    InstantCall(LATE, CheckIp(LATE, w, IpCountDb(Admin), Admin, ip).w, Admin, ip);
  }
}
