/** How often one address can pass the gate within 3610 seconds, whatever fails
    (src/redis_check_ip.c, src/redis_increment.c). */
module WindowBound {
  import opened Common
  import opened RedisStore
  import opened Protocol
  import opened History
  import opened GateHistory

  /** A pass whose EXPIRE found its counter. */
  predicate ArmedPass(e: Event) {
    e.GatePassed? && e.armed
  }

  function CounterEntry(w: World, ty: PostType, ip: string): Option<Entry> {
    At(w.store, IpCountDb(ty), FailedKey(ty, ip))
  }

  ghost predicate Counting(entry: Option<Entry>) {
    entry.Some? ==> entry.value.value.Count? && entry.value.value.n >= 1
  }

  /** For 3610 s from the pass, the counter is there and counts at least as far. */
  ghost predicate Covered(w: World, entry: Option<Entry>, e: Event)
    requires e.GatePassed?
  {
    w.now < e.at + WINDOW ==>
      && entry.Some? && entry.value.value.Count? && entry.value.value.n >= e.count
      && (entry.value.expiry.None? || entry.value.expiry.value >= e.at + WINDOW)
  }

  /** Armed passes less than 3610 s apart carry growing counts. */
  ghost predicate Climbing(trace: seq<Event>) {
    forall i, j :: 0 <= i < j < |trace| && ArmedPass(trace[i]) && ArmedPass(trace[j]) ==>
      trace[i].at <= trace[j].at && (trace[j].at < trace[i].at + WINDOW ==> trace[i].count < trace[j].count)
  }

  ghost predicate PassesCovered(w: World, entry: Option<Entry>, trace: seq<Event>, max: int) {
    forall i :: 0 <= i < |trace| && ArmedPass(trace[i]) ==>
      trace[i].at <= w.now && 1 <= trace[i].count <= max && Covered(w, entry, trace[i])
  }

  ghost predicate PassInv(w: World, ty: PostType, ip: string) {
    && Counting(CounterEntry(w, ty, ip))
    && PassesCovered(w, CounterEntry(w, ty, ip), CounterTrace(w, ty, ip), MaxAllowed(ty))
    && Climbing(CounterTrace(w, ty, ip))
  }

  predicate CounterCmd(cmd: Cmd, ty: PostType, ip: string) {
    cmd == Incr(FailedKey(ty, ip)) || cmd == Expire(FailedKey(ty, ip), SIGNUP_FAILED_TTL)
  }

  lemma CoverStays(w: World, w': World, ty: PostType, ip: string, cmd: Cmd, e: Event)
    requires CounterCmd(cmd, ty, ip) && Stepped(w, w', IpCountDb(ty), cmd)
    requires e.GatePassed? && e.at <= w.now && Covered(w, CounterEntry(w, ty, ip), e)
    ensures Covered(w', CounterEntry(w', ty, ip), e)
  {
  }

  lemma CountingStays(w: World, w': World, ty: PostType, ip: string, cmd: Cmd)
    requires CounterCmd(cmd, ty, ip) && Stepped(w, w', IpCountDb(ty), cmd) && Counting(CounterEntry(w, ty, ip))
    ensures Counting(CounterEntry(w', ty, ip))
  {
  }

  lemma CounterTraceStep(w: World, w': World, ty: PostType, ip: string, cmd: Cmd)
    requires CounterCmd(cmd, ty, ip) && Stepped(w, w', IpCountDb(ty), cmd)
    ensures CounterTrace(w', ty, ip) == CounterTrace(w, ty, ip)
         || CounterTrace(w', ty, ip) == CounterTrace(w, ty, ip) + [Ran(w'.now, IpCountDb(ty), cmd)]
  {
    hide Trace, Effect;
    TraceSnoc(w.log, Ran(w'.now, IpCountDb(ty), cmd), IpCountDb(ty), FailedKey(ty, ip));
  }

  /** Time, INCR and the gate's EXPIRE keep the invariant, run or not. */
  lemma CounterStep(w: World, w': World, ty: PostType, ip: string, cmd: Cmd)
    requires PassInv(w, ty, ip) && CounterCmd(cmd, ty, ip) && Stepped(w, w', IpCountDb(ty), cmd)
    ensures PassInv(w', ty, ip)
    ensures CounterTrace(w', ty, ip) == CounterTrace(w, ty, ip)
         || CounterTrace(w', ty, ip) == CounterTrace(w, ty, ip) + [Ran(w'.now, IpCountDb(ty), cmd)]
  {
    hide CounterEntry, CounterTrace, Effect, Covered, Counting;
    CounterTraceStep(w, w', ty, ip, cmd);
    CountingStays(w, w', ty, ip, cmd);
    var trace := CounterTrace(w, ty, ip);
    forall i | 0 <= i < |trace| && ArmedPass(trace[i]) ensures Covered(w', CounterEntry(w', ty, ip), trace[i]) {
      CoverStays(w, w', ty, ip, cmd, trace[i]);
    }
  }

  lemma UntouchedPasses(w: World, w': World, ty: PostType, ip: string)
    requires PassInv(w, ty, ip) && w.now <= w'.now
    requires Untouched(w, w', IpCountDb(ty), FailedKey(ty, ip))
    ensures PassInv(w', ty, ip)
  {
    hide Trace;
  }

  /** The count is beyond that of every armed pass of the last 3610 s. */
  ghost predicate Beyond(trace: seq<Event>, now: int, n: int) {
    forall i :: 0 <= i < |trace| && ArmedPass(trace[i]) && now < trace[i].at + WINDOW ==> trace[i].count < n
  }

  lemma IncrClimbs(tape: Tape, w: World, ty: PostType, ip: string)
    requires PassInv(w, ty, ip)
    ensures var incr := GetInt(tape, w, IpCountDb(ty), Incr(FailedKey(ty, ip)));
            && PassInv(incr.w, ty, ip)
            && (incr.rt == 0 ==>
                  && incr.n >= 1 && Beyond(CounterTrace(incr.w, ty, ip), incr.w.now, incr.n)
                  && CounterEntry(incr.w, ty, ip).Some? && CounterEntry(incr.w, ty, ip).value.value == Count(incr.n))
  {
    hide Trace, Settle, Climbing;
    var (w1, reply) := Issue(tape, w, IpCountDb(ty), Incr(FailedKey(ty, ip)));
    CounterStep(w, w1, ty, ip, Incr(FailedKey(ty, ip)));
  }

  lemma ExpireArms(tape: Tape, w: World, ty: PostType, ip: string, n: int)
    requires PassInv(w, ty, ip) && Beyond(CounterTrace(w, ty, ip), w.now, n)
    requires CounterEntry(w, ty, ip).Some? && CounterEntry(w, ty, ip).value.value == Count(n)
    ensures var expire := GetInt(tape, w, IpCountDb(ty), Expire(FailedKey(ty, ip), SIGNUP_FAILED_TTL));
            && PassInv(expire.w, ty, ip) && Beyond(CounterTrace(expire.w, ty, ip), expire.w.now, n)
            && (expire.n == 1 ==> CounterEntry(expire.w, ty, ip) == Some(Entry(Count(n), Some(expire.w.now + WINDOW))))
  {
    hide Trace, Settle;
    var cmd := Expire(FailedKey(ty, ip), SIGNUP_FAILED_TTL);
    var (w1, reply) := Issue(tape, w, IpCountDb(ty), cmd);
    CounterStep(w, w1, ty, ip, cmd);
  }

  lemma IncrementClimbs(tape: Tape, w: World, ty: PostType, ip: string)
    requires PassInv(w, ty, ip)
    ensures var count := Increment(tape, w, IpCountDb(ty), SIGNUP_FAILED_TTL, FailedKey(ty, ip));
            && PassInv(count.w, ty, ip)
            && (count.rt == 0 ==>
                  && count.n >= 1 && Beyond(CounterTrace(count.w, ty, ip), count.w.now, count.n)
                  && (count.armed ==>
                      CounterEntry(count.w, ty, ip) == Some(Entry(Count(count.n), Some(count.w.now + WINDOW)))))
  {
    hide Trace, GetInt, Beyond;
    var (w1, up) := Connect(tape, w, IpCountDb(ty));
    if up {
      UntouchedPasses(w, w1, ty, ip);
      IncrClimbs(tape, w1, ty, ip);
      var incr := GetInt(tape, w1, IpCountDb(ty), Incr(FailedKey(ty, ip)));
      if incr.rt == 0 { ExpireArms(tape, incr.w, ty, ip, incr.n); }
    } else {
      UntouchedPasses(w, w1, ty, ip);
    }
  }

  lemma PassRecorded(w: World, ty: PostType, ip: string, n: int, armed: bool)
    requires PassInv(w, ty, ip) && 1 <= n <= MaxAllowed(ty) && Beyond(CounterTrace(w, ty, ip), w.now, n)
    requires armed ==> CounterEntry(w, ty, ip) == Some(Entry(Count(n), Some(w.now + WINDOW)))
    ensures PassInv(Passed(w, ty, ip, n, armed), ty, ip)
  {
    hide Trace;
    TraceSnoc(w.log, GatePassed(w.now, ty, ip, n, armed), IpCountDb(ty), FailedKey(ty, ip));
  }

  lemma GateKeepsPasses(tape: Tape, w: World, ty: PostType, ip: string)
    requires PassInv(w, ty, ip)
    ensures PassInv(CheckIp(tape, w, IpCountDb(ty), ty, ip).w, ty, ip)
  {
    hide Trace, GetInt, Increment, PassInv, Passed, Beyond;
    var db := IpCountDb(ty);
    var (w1, up) := Connect(tape, w, db);
    UntouchedPasses(w, w1, ty, ip);
    if up {
      var flag := GetInt(tape, w1, db, Exists(OkKey(ty, ip)));
      GetIntFrame(tape, w1, db, Exists(OkKey(ty, ip)), db, FailedKey(ty, ip));
      UntouchedPasses(w1, flag.w, ty, ip);
      IncrementClimbs(tape, flag.w, ty, ip);
      var count := Increment(tape, flag.w, db, SIGNUP_FAILED_TTL, FailedKey(ty, ip));
      if flag.rt == 0 && count.rt == 0 && !FlagBlocks(ty, flag.n) && count.n <= MaxAllowed(ty) {
        PassRecorded(count.w, ty, ip, count.n, count.armed);
      }
    }
  }

  lemma ServeKeepsPasses(env: Env, w: World, rq: Request, ty: PostType, ip: string)
    requires PassInv(w, ty, ip)
    ensures PassInv(Serve(env, w, rq).w, ty, ip)
  {
    hide Trace, AfterGate, CheckIp, PassInv, Untouched, Spares;
    var w' := Serve(env, w, rq).w;
    if CallsGate(rq, ty, ip) {
      GateKeepsPasses(env.tape, w, ty, ip);
      var gate := CheckIp(env.tape, w, IpCountDb(ty), ty, ip);
      if gate.rt == 0 {
        BehindGateFrame(env, gate.w, ty, rq, IpCountDb(ty), FailedKey(ty, ip));
        UntouchedPasses(gate.w, w', ty, ip);
      }
    } else {
      CounterKeyIsPrivate(env.form, rq, ty, ip);
      ServeFrame(env, w, rq, IpCountDb(ty), FailedKey(ty, ip));
      UntouchedPasses(w, w', ty, ip);
    }
  }

  lemma {:induction false} RunKeepsPasses(env: Env, w: World, rqs: seq<Request>, ty: PostType, ip: string)
    requires PassInv(w, ty, ip)
    ensures PassInv(Run(env, w, rqs), ty, ip)
    decreases |rqs|
  {
    hide Serve, PassInv;
    if rqs != [] {
      ServeKeepsPasses(env, w, rqs[0], ty, ip);
      RunKeepsPasses(env, Serve(env, w, rqs[0]).w, rqs[1..], ty, ip);
    }
  }

  lemma FreshPasses(ty: PostType, ip: string)
    ensures PassInv(FRESH, ty, ip)
  {
  }

  // ----- Counting passes in a window -----

  predicate InWindow(e: Event, start: int) {
    ArmedPass(e) && start <= e.at < start + WINDOW
  }

  function PassesIn(trace: seq<Event>, start: int): nat {
    if trace == [] then 0
    else PassesIn(trace[..|trace| - 1], start) + if InWindow(trace[|trace| - 1], start) then 1 else 0
  }

  /** In a climbing history the passes of a window are no more than the last count. */
  lemma {:induction false} WindowCount(trace: seq<Event>, start: int, top: int)
    requires Climbing(trace) && 0 <= top
    requires forall i :: 0 <= i < |trace| && InWindow(trace[i], start) ==> 1 <= trace[i].count <= top
    ensures PassesIn(trace, start) <= top
    decreases |trace|
  {
    if trace != [] {
      var n := |trace| - 1;
      var e := trace[n];
      assert Climbing(trace[..n]);
      if InWindow(e, start) {
        assert forall i :: 0 <= i < n && InWindow(trace[i], start) ==> trace[..n][i].count < e.count;
        WindowCount(trace[..n], start, e.count - 1);
      } else {
        WindowCount(trace[..n], start, top);
      }
    }
  }

  /** In every run of one worker, under any failures of the store, no window of 3610 s
      holds more than 5 signup, 10 login or 2 admin passes of one address. */
  lemma WindowBounded(env: Env, rqs: seq<Request>, ty: PostType, ip: string, start: int)
    ensures PassesIn(CounterTrace(Run(env, FRESH, rqs), ty, ip), start)
         <= match ty case Signup => 5 case Login => 10 case Admin => 2
  {
    hide Run;
    FreshPasses(ty, ip);
    RunKeepsPasses(env, FRESH, rqs, ty, ip);
    WindowCount(CounterTrace(Run(env, FRESH, rqs), ty, ip), start, MaxAllowed(ty));
  }

  /** Which passes are armed: those whose counter is still alive when the EXPIRE
      arrives. In particular every pass whose INCR and EXPIRE are one instant. */
  lemma ArmedExactly(tape: Tape, w: World, db: int, ty: PostType, ip: string)
    requires CheckIp(tape, w, db, ty, ip).rt == 0
    ensures var flag := GetInt(tape, Connect(tape, w, db).0, db, Exists(OkKey(ty, ip)));
            var incr := GetInt(tape, Connect(tape, flag.w, db).0, db, Incr(FailedKey(ty, ip)));
            var w' := CheckIp(tape, w, db, ty, ip).w;
            && w'.log[|w'.log| - 1]
               == GatePassed(w'.now, ty, ip, incr.n, Live(incr.w.store, db, FailedKey(ty, ip), w'.now))
            && (tape(incr.w.pos).wait == 0 ==> w'.log[|w'.log| - 1].armed)
  {
    hide Settle;
    var flag := GetInt(tape, Connect(tape, w, db).0, db, Exists(OkKey(ty, ip)));
    var w2 := Connect(tape, flag.w, db).0;
    var incr := GetInt(tape, w2, db, Incr(FailedKey(ty, ip)));
    assert Live(incr.w.store, db, FailedKey(ty, ip), incr.w.now);
  }

  /** What an INCR answered in time and an EXPIRE that comes too late leave behind. */
  lemma LateIncrement(tape: Tape, w: World, ty: PostType, ip: string, n: int, expiry: int)
    requires IpText(ip) && SmoothFor(tape, w.pos, 3)
    requires CounterEntry(w, ty, ip) == Some(Entry(Count(n), Some(expiry)))
    requires var called := w.now + tape(w.pos).wait + tape(w.pos + 1).wait;
             called < expiry <= called + tape(w.pos + 2).wait
    ensures var count := Increment(tape, w, IpCountDb(ty), SIGNUP_FAILED_TTL, FailedKey(ty, ip));
            && count.rt == 0 && count.n == n + 1 && !count.armed
            && !Live(count.w.store, IpCountDb(ty), FailedKey(ty, ip), count.w.now)
            && count.w.pos == w.pos + 3
            && count.w.now == w.now + tape(w.pos).wait + tape(w.pos + 1).wait + tape(w.pos + 2).wait
            && At(count.w.store, IpCountDb(ty), OkKey(ty, ip)) == At(w.store, IpCountDb(ty), OkKey(ty, ip))
  {
    assert Smooth(tape(w.pos)) && Smooth(tape(w.pos + 1)) && Smooth(tape(w.pos + 2));
  }

  /** The bound counts armed passes for a reason. When the counter dies between INCR and
      EXPIRE, the EXPIRE finds nothing, its answer is not looked at, and the call passes
      with no counter left behind: the next call starts a new burst at once. */
  lemma LateExpireDisarms(tape: Tape, w: World, ty: PostType, ip: string, n: int, expiry: int)
    requires IpText(ip) && SmoothFor(tape, w.pos, 5) && 0 < n < MaxAllowed(ty)
    requires CounterEntry(w, ty, ip) == Some(Entry(Count(n), Some(expiry)))
    requires CallTime(tape, w) < expiry <= CallTime(tape, w) + tape(w.pos + 4).wait
    requires !Live(w.store, IpCountDb(ty), OkKey(ty, ip), LookTime(tape, w))
    ensures var gate := CheckIp(tape, w, IpCountDb(ty), ty, ip);
            && gate.rt == 0 && !Live(gate.w.store, IpCountDb(ty), FailedKey(ty, ip), gate.w.now)
            && gate.w.pos == w.pos + 5 && gate.w.now == CallTime(tape, w) + tape(w.pos + 4).wait
            && At(gate.w.store, IpCountDb(ty), OkKey(ty, ip)) == At(w.store, IpCountDb(ty), OkKey(ty, ip))
  {
    hide GetInt, Connect, Increment, Live, At;
    var flag := FlagLookup(tape, w, ty, ip);
    LateIncrement(tape, flag.w, ty, ip, n, expiry);
  }
}
