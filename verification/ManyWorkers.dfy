/** What any number of workers can do within a window of time, in any order of commands and
    under any failures (src/redis_check_ip.c, src/http_server_main_loop_handler.c, the
    threads of src/main.c). */
module ManyWorkers {
  import opened Common
  import opened RedisStore
  import opened HttpText
  import opened HttpParser
  import opened PostPath
  import opened Hashing
  import opened Protocol
  import opened History
  import opened GateHistory
  import opened WindowBound
  import opened Interleaving
  import opened SentCommands

  // ----- Counting workers -----

  function Bit(b: bool): nat {
    if b then 1 else 0
  }

  function Tally(ws: seq<Worker>, p: Worker -> bool): nat {
    if ws == [] then 0 else Tally(ws[..|ws| - 1], p) + Bit(p(ws[|ws| - 1]))
  }

  lemma {:induction false} TallyBound(ws: seq<Worker>, p: Worker -> bool)
    ensures Tally(ws, p) <= |ws|
    decreases |ws|
  {
    if ws != [] { TallyBound(ws[..|ws| - 1], p); }
  }

  lemma {:induction false} TallyUpdate(ws: seq<Worker>, i: nat, me: Worker, p: Worker -> bool)
    requires i < |ws|
    ensures Tally(ws[i := me], p) + Bit(p(ws[i])) == Tally(ws, p) + Bit(p(me))
    decreases |ws|
  {
    var n := |ws| - 1;
    if i == n {
      assert ws[i := me][..n] == ws[..n];
    } else {
      assert ws[i := me][..n] == ws[..n][i := me];
      TallyUpdate(ws[..n], i, me, p);
    }
  }

  // ----- What a step can change -----

  /** The move performs a command. */
  predicate Works(s: Sys, m: Move) {
    m.Go? && m.i < |s.workers| && Active(s.workers[m.i].pc) && IsIpCountDb(m.db)
  }

  /** The database of the next command; `db` is what the shared index reads. */
  function NextDb(pc: Pc, db: int): int {
    match pc
    case AtFlag(d) => d
    case AtIncr(d, _) => d
    case AtExpire(d, _, _) => d
    case AtNewSession(_) => db
    case AtLookup(_) => db
    case AtSetFlag(_) => db
    case _ => SALT_LOGIN_DB
  }

  /** The entry that the next command can change. */
  predicate Targets(form: Form, ty: PostType, rq: Request, pc: Pc, db: int, d: int, k: Key)
    requires PcOk(pc)
  {
    var cmd := NextCmd(form, ty, rq, pc);
    cmd.Some? && Mutates(cmd.value) && NextDb(pc, db) == d && cmd.value.key == k
  }

  lemma StepSpares(env: Env, w: World, ty: PostType, rq: Request, pc: Pc, db: int, d: int, k: Key)
    requires PcOk(pc) && !Targets(env.form, ty, rq, pc, db, d, k)
    ensures At(Step(env, w, ty, rq, pc, db).0.store, d, k) == At(w.store, d, k)
    ensures w.now <= Step(env, w, ty, rq, pc, db).0.now
  {
    hide At, Trace, GetInt, GetString, SetHset, Issue, Send, LoginCheck, DecText, ParseSession, FlagIp, GuardKey,
      BehindGate, CookiePc, AfterSalt, AfterGuard, Effect, TrueReply, Settle, Truthful, Stepped, NewRecord,
      SetVerdict, ExpireVerdict, FlagBlocks, MaxAllowed, CookieOf, Dial;
    match pc
    case AtFlag(e) => GetIntFrame(env.tape, w, e, Exists(OkKey(ty, rq.ip)), d, k);
    case AtIncr(e, _) => GetIntFrame(env.tape, w, e, Incr(FailedKey(ty, rq.ip)), d, k);
    case AtExpire(e, _, _) => GetIntFrame(env.tape, w, e, Expire(FailedKey(ty, rq.ip), SIGNUP_FAILED_TTL), d, k);
    case AtNewSession(user) =>
      SetHsetFrame(env.tape, w, db, SESS_TTL, SetEx(SessKey(ty, user, rq.sesv), rq.sess, SESS_TTL), d, k);
    case AtNewSalt(user) => GetStringFrame(env.tape, w, SALT_LOGIN_DB, SALT_LEN,
                                           HGet(UserKey(Login, user), "salt"), d, k);
    case AtLookup(p) => GetStringFrame(env.tape, w, db, SALT_LEN, Get(SessKey(ty, p.user, p.salt)), d, k);
    case AtGuard(p) => GetIntFrame(env.tape, w, SALT_LOGIN_DB, Exists(GuardKey(env.form, ty, p.user)), d, k);
    case AtSetFlag(_) =>
      var cmd := SetEx(OkKey(Signup, FlagIp(env.form, rq)), "1", SIGNUP_OK_TTL);
      SetHsetFrame(env.tape, w, db, SIGNUP_OK_TTL, cmd, d, k);
    case AtHSet(p) =>
      var cmd := HSet(UserKey(Login, p.user), NewRecord(p.passwd, p.salt));
      StepFrame(w, Issue(env.tape, w, SALT_LOGIN_DB, cmd).0, SALT_LOGIN_DB, cmd, d, k);
    case AtHExpire(p) =>
      var cmd := Expire(UserKey(Login, p.user), NEW_USER_TTL);
      StepFrame(w, Send(env.tape, w, SALT_LOGIN_DB, cmd).0, SALT_LOGIN_DB, cmd, d, k);
    case AtHash(p) =>
      GetStringFrame(env.tape, w, SALT_LOGIN_DB, PASSWD_LEN, HGet(UserKey(Login, p.user), "hash"), d, k);
    case AtSalt(p, _) =>
      GetStringFrame(env.tape, w, SALT_LOGIN_DB, SALT_LEN, HGet(UserKey(Login, p.user), "salt"), d, k);
    case _ =>
  }

  // ----- Gate passes -----

  /** The worker stands between INCR and EXPIRE of this counter, with a count that may pass. */
  function InGate(db: int, ty: PostType, ip: string): Worker -> bool {
    (me: Worker) => me.pc.AtExpire? && me.pc.db == db && me.ty == ty && me.rq.ip == ip && me.pc.n <= MaxAllowed(ty)
  }

  /** The move lets its worker through the gate of (ty, ip): what follows its EXPIRE is not
      the gate's refusal. */
  predicate PassMove(env: Env, s: Sys, m: Move, ty: PostType, ip: string)
    requires SysOk(s)
  {
    && Works(s, m)
    && var me := s.workers[m.i];
       && me.pc.AtExpire? && me.ty == ty && me.rq.ip == ip
       && var pc' := Do(env, s, m).workers[m.i].pc;
          !(pc'.Closed? && pc'.rt == 211021)
  }

  /** And its counter is the one in database db. */
  predicate PassMoveIn(env: Env, s: Sys, m: Move, db: int, ty: PostType, ip: string)
    requires SysOk(s)
  {
    PassMove(env, s, m, ty, ip) && s.workers[m.i].pc.db == db
  }

  /** How many moves pass the gate within 3610 s from `start`. */
  function GatePasses(env: Env, s: Sys, moves: seq<Move>, ty: PostType, ip: string, start: int): nat
    requires SysOk(s)
    decreases |moves|
  {
    if moves == [] then 0
    else
      var s' := Do(env, s, moves[0]);
      Bit(PassMove(env, s, moves[0], ty, ip) && start <= s'.w.now < start + WINDOW)
      + GatePasses(env, s', moves[1..], ty, ip, start)
  }

  /** And how many of them by the counter in database db. */
  function PassesIn(env: Env, s: Sys, moves: seq<Move>, db: int, ty: PostType, ip: string, start: int): nat
    requires SysOk(s)
    decreases |moves|
  {
    if moves == [] then 0
    else
      var s' := Do(env, s, moves[0]);
      Bit(PassMoveIn(env, s, moves[0], db, ty, ip) && start <= s'.w.now < start + WINDOW)
      + PassesIn(env, s', moves[1..], db, ty, ip, start)
  }

  predicate AliveNow(entry: Option<Entry>, t: int) {
    entry.Some? && (entry.value.expiry.None? || t < entry.value.expiry.value)
  }

  predicate IsCounter(entry: Option<Entry>) {
    entry.Some? ==> entry.value.value.Count? && entry.value.value.n >= 0
  }

  /** The counter is alive and will expire within the window. */
  predicate Expiring(entry: Option<Entry>, t: int, start: int) {
    AliveNow(entry, t) && entry.value.expiry.Some? && entry.value.expiry.value < start + WINDOW
  }

  /** The passes that are still possible in the window. Before it, and as long as the counter
      will expire within it: a full count and one for each worker. After that the workers in
      the gate, and what the counter leaves of a full count. */
  function Possible(entry: Option<Entry>, t: int, inGate: nat, n: nat, max: nat, start: int): int
    requires IsCounter(entry)
  {
    if t >= start + WINDOW then 0
    else if t < start || Expiring(entry, t, start) then n + max
    else
      var count := if AliveNow(entry, t) then entry.value.value.n else 0;
      inGate + max - if count < max then count else max
  }

  lemma PossibleBound(entry: Option<Entry>, t: int, inGate: nat, n: nat, max: nat, start: int)
    requires IsCounter(entry) && inGate <= n
    ensures 0 <= Possible(entry, t, inGate, n, max, start) <= n + max
  {
  }

  lemma PossibleLater(entry: Option<Entry>, t: int, t': int, inGate: nat, n: nat, max: nat, start: int)
    requires IsCounter(entry) && inGate <= n && t <= t'
    ensures Possible(entry, t', inGate, n, max, start) <= Possible(entry, t, inGate, n, max, start)
  {
  }

  function Incremented(entry: Option<Entry>, t: int): Option<Entry>
    requires IsCounter(entry)
  {
    if AliveNow(entry, t) then Some(Entry(Count(entry.value.value.n + 1), entry.value.expiry))
    else Some(Entry(Count(1), None))
  }

  function Prolonged(entry: Option<Entry>, t: int): Option<Entry> {
    if AliveNow(entry, t) then Some(Entry(entry.value.value, Some(t + WINDOW))) else entry
  }

  lemma IncrSpends(entry: Option<Entry>, t: int, inGate: nat, inGate': nat, n: nat, max: nat, start: int)
    requires IsCounter(entry) && max >= 1 && inGate' <= n
    requires inGate' <= inGate + Bit(Incremented(entry, t).value.value.n <= max)
    ensures IsCounter(Incremented(entry, t))
    ensures Possible(Incremented(entry, t), t, inGate', n, max, start) <= Possible(entry, t, inGate, n, max, start)
  {
  }

  lemma ExpireSpends(entry: Option<Entry>, t: int, inGate: nat, n: nat, max: nat, start: int)
    requires IsCounter(entry) && 1 <= inGate <= n
    ensures IsCounter(Prolonged(entry, t))
    ensures Bit(start <= t < start + WINDOW) + Possible(Prolonged(entry, t), t, inGate - 1, n, max, start)
         <= Possible(entry, t, inGate, n, max, start)
  {
  }

  lemma ProlongSpends(entry: Option<Entry>, t: int, inGate: nat, inGate': nat, n: nat, max: nat, start: int)
    requires IsCounter(entry) && inGate' <= inGate <= n
    ensures IsCounter(Prolonged(entry, t))
    ensures Possible(Prolonged(entry, t), t, inGate', n, max, start) <= Possible(entry, t, inGate, n, max, start)
  {
  }

  function PossibleIn(s: Sys, db: int, ty: PostType, ip: string, start: int): int
    requires IsCounter(At(s.w.store, db, FailedKey(ty, ip)))
  {
    Possible(At(s.w.store, db, FailedKey(ty, ip)), s.w.now, Tally(s.workers, InGate(db, ty, ip)), |s.workers|,
             MaxAllowed(ty), start)
  }

  /** What INCR and EXPIRE do to their entry. */
  lemma CommandOnCounter(w: World, w': World, db: int, ty: PostType, ip: string, cmd: Cmd)
    requires CounterCmd(cmd, ty, ip) && Stepped(w, w', db, cmd) && IsCounter(At(w.store, db, FailedKey(ty, ip)))
    ensures var before, after := At(w.store, db, FailedKey(ty, ip)), At(w'.store, db, FailedKey(ty, ip));
            after == before || after == if cmd.Incr? then Incremented(before, w'.now) else Prolonged(before, w'.now)
  {
  }

  lemma AnsweredIncr(tape: Tape, w: World, db: int, ty: PostType, ip: string)
    requires IsCounter(At(w.store, db, FailedKey(ty, ip)))
    requires GetInt(tape, w, db, Incr(FailedKey(ty, ip))).rt == 0
    ensures var incr := GetInt(tape, w, db, Incr(FailedKey(ty, ip)));
            var before := At(w.store, db, FailedKey(ty, ip));
            && At(incr.w.store, db, FailedKey(ty, ip)) == Incremented(before, incr.w.now)
            && incr.n == Incremented(before, incr.w.now).value.value.n
  {
    hide Settle;
  }

  lemma AnsweredExpire(tape: Tape, w: World, db: int, ty: PostType, ip: string)
    requires GetInt(tape, w, db, Expire(FailedKey(ty, ip), SIGNUP_FAILED_TTL)).rt == 0
    ensures var expire := GetInt(tape, w, db, Expire(FailedKey(ty, ip), SIGNUP_FAILED_TTL));
            At(expire.w.store, db, FailedKey(ty, ip)) == Prolonged(At(w.store, db, FailedKey(ty, ip)), expire.w.now)
  {
    hide Settle;
  }

  /** A move: what it passes and what remains possible is no more than what was possible. */
  ghost predicate Spends(env: Env, s: Sys, m: Move, db: int, ty: PostType, ip: string, start: int)
    requires SysOk(s) && IsCounter(At(s.w.store, db, FailedKey(ty, ip)))
  {
    var s' := Do(env, s, m);
    && IsCounter(At(s'.w.store, db, FailedKey(ty, ip)))
    && Bit(PassMoveIn(env, s, m, db, ty, ip) && start <= s'.w.now < start + WINDOW) + PossibleIn(s', db, ty, ip, start)
       <= PossibleIn(s, db, ty, ip, start)
  }

  /** The kinds of moves: a new request or nothing, INCR of the counter, EXPIRE of the
      counter, any other command. */
  lemma IdleMoveSpends(env: Env, s: Sys, m: Move, db: int, ty: PostType, ip: string, start: int)
    requires SysOk(s) && IsCounter(At(s.w.store, db, FailedKey(ty, ip))) && !Works(s, m)
    ensures Spends(env, s, m, db, ty, ip, start)
  {
    hide Step, At, Classify, Tally, Possible, IsCounter;
    var s', p := Do(env, s, m), InGate(db, ty, ip);
    if m.Begin? && m.i < |s.workers| {
      TallyUpdate(s.workers, m.i, s'.workers[m.i], p);
      assert s.workers[m.i := s.workers[m.i]] == s.workers;
    }
    assert !PassMove(env, s, m, ty, ip);
    assert Tally(s'.workers, p) == Tally(s.workers, p);
  }

  lemma OtherMoveSpends(env: Env, s: Sys, m: Move, db: int, ty: PostType, ip: string, start: int)
    requires SysOk(s) && IsCounter(At(s.w.store, db, FailedKey(ty, ip))) && Works(s, m)
    requires var me := s.workers[m.i]; !Targets(env.form, me.ty, me.rq, me.pc, m.db, db, FailedKey(ty, ip))
    ensures Spends(env, s, m, db, ty, ip, start)
  {
    hide Step, At, Tally, Possible, Targets;
    var s' := Do(env, s, m);
    var me, p := s.workers[m.i], InGate(db, ty, ip);
    var w := s.w.(link := me.link);
    TallyBound(s.workers, p);
    StepSpares(env, w, me.ty, me.rq, me.pc, m.db, db, FailedKey(ty, ip));
    TallyUpdate(s.workers, m.i, s'.workers[m.i], p);
    NotIntoGate(env, w, me.ty, me.rq, me.pc, m.db, db, ip, ty);
    PossibleLater(At(s.w.store, db, FailedKey(ty, ip)), s.w.now, s'.w.now, Tally(s.workers, p), |s.workers|,
                  MaxAllowed(ty), start);
  }

  lemma NotIntoGate(env: Env, w: World, wty: PostType, rq: Request, pc: Pc, index: int, db: int, ip: string,
                    ty: PostType)
    requires PcOk(pc) && !Targets(env.form, wty, rq, pc, index, db, FailedKey(ty, ip))
    ensures var pc' := Step(env, w, wty, rq, pc, index).1;
            && !(pc'.AtExpire? && pc'.db == db && wty == ty && rq.ip == ip)
            && !(pc.AtExpire? && pc.db == db && wty == ty && rq.ip == ip)
  {
    hide Connect, GetInt, GetString, SetHset, Issue, Send, LoginCheck, DecText, ParseSession, CookieOf,
      FlagIp, GuardKey, NewRecord, FlagBlocks, MaxAllowed, SetVerdict, ExpireVerdict, Passed, Noted;
  }

  lemma IncrMoveSpends(env: Env, s: Sys, m: Move, db: int, ty: PostType, ip: string, start: int)
    requires SysOk(s) && IsCounter(At(s.w.store, db, FailedKey(ty, ip)))
    requires m.Go? && m.i < |s.workers| && IsIpCountDb(m.db)
    requires var me := s.workers[m.i]; me.pc.AtIncr? && me.pc.db == db && me.ty == ty && me.rq.ip == ip
    ensures Spends(env, s, m, db, ty, ip, start)
  {
    hide At, Tally, Possible, Effect, TrueReply, Settle, Truthful;
    var s', me, k, max := Do(env, s, m), s.workers[m.i], FailedKey(ty, ip), MaxAllowed(ty);
    var w := s.w.(link := me.link);
    var n, p, before := |s.workers|, InGate(db, ty, ip), At(s.w.store, db, k);
    var incr := GetInt(env.tape, w, db, Incr(k));
    TallyBound(s.workers, p);
    TallyBound(s'.workers, p);
    TallyUpdate(s.workers, m.i, s'.workers[m.i], p);
    CommandOnCounter(w, incr.w, db, ty, ip, Incr(k));
    PossibleLater(before, s.w.now, incr.w.now, Tally(s.workers, p), n, max, start);
    if incr.rt == 0 { AnsweredIncr(env.tape, w, db, ty, ip); }
    if At(incr.w.store, db, k) != before {
      IncrSpends(before, incr.w.now, Tally(s.workers, p), Tally(s'.workers, p), n, max, start);
    } else {
      SameOrLess(before, incr.w.now, Tally(s.workers, p), Tally(s'.workers, p), n, max, start);
    }
  }

  lemma SameOrLess(entry: Option<Entry>, t: int, inGate: nat, inGate': nat, n: nat, max: nat, start: int)
    requires IsCounter(entry) && inGate' <= inGate <= n
    ensures Possible(entry, t, inGate', n, max, start) <= Possible(entry, t, inGate, n, max, start)
  {
  }

  lemma ExpireMoveSpends(env: Env, s: Sys, m: Move, db: int, ty: PostType, ip: string, start: int)
    requires SysOk(s) && IsCounter(At(s.w.store, db, FailedKey(ty, ip)))
    requires m.Go? && m.i < |s.workers| && IsIpCountDb(m.db)
    requires var me := s.workers[m.i]; me.pc.AtExpire? && me.pc.db == db && me.ty == ty && me.rq.ip == ip
    ensures Spends(env, s, m, db, ty, ip, start)
  {
    hide At, Tally, Possible, Effect, TrueReply, Settle, Truthful, ParseSession, HeadEnd, DecText, FlagBlocks;
    var s', me, k, max := Do(env, s, m), s.workers[m.i], FailedKey(ty, ip), MaxAllowed(ty);
    var w := s.w.(link := me.link);
    var n, p, before := |s.workers|, InGate(db, ty, ip), At(s.w.store, db, k);
    var cmd := Expire(k, SIGNUP_FAILED_TTL);
    var expire := GetInt(env.tape, w, db, cmd);
    TallyBound(s.workers, p);
    TallyUpdate(s.workers, m.i, s'.workers[m.i], p);
    CommandOnCounter(w, expire.w, db, ty, ip, cmd);
    PossibleLater(before, s.w.now, expire.w.now, Tally(s.workers, p), n, max, start);
    if PassMoveIn(env, s, m, db, ty, ip) {
      AnsweredExpire(env.tape, w, db, ty, ip);
      ExpireSpends(before, expire.w.now, Tally(s.workers, p), n, max, start);
    } else if At(expire.w.store, db, k) != before {
      ProlongSpends(before, expire.w.now, Tally(s.workers, p), Tally(s'.workers, p), n, max, start);
    } else {
      SameOrLess(before, expire.w.now, Tally(s.workers, p), Tally(s'.workers, p), n, max, start);
    }
  }

  lemma MoveSpends(env: Env, s: Sys, m: Move, db: int, ty: PostType, ip: string, start: int)
    requires SysOk(s) && IsCounter(At(s.w.store, db, FailedKey(ty, ip)))
    ensures Spends(env, s, m, db, ty, ip, start)
  {
    hide Step, Spends, At;
    if Works(s, m) {
      var me := s.workers[m.i];
      if me.pc.AtIncr? && me.pc.db == db && me.ty == ty && me.rq.ip == ip {
        IncrMoveSpends(env, s, m, db, ty, ip, start);
      } else if me.pc.AtExpire? && me.pc.db == db && me.ty == ty && me.rq.ip == ip {
        ExpireMoveSpends(env, s, m, db, ty, ip, start);
      } else {
        OtherMoveSpends(env, s, m, db, ty, ip, start);
      }
    } else {
      IdleMoveSpends(env, s, m, db, ty, ip, start);
    }
  }

  lemma {:induction false} PassesArePossible(env: Env, s: Sys, moves: seq<Move>, db: int, ty: PostType, ip: string,
                                             start: int)
    requires SysOk(s) && IsCounter(At(s.w.store, db, FailedKey(ty, ip)))
    ensures PassesIn(env, s, moves, db, ty, ip, start) <= PossibleIn(s, db, ty, ip, start)
    decreases |moves|
  {
    hide Do, At, PassMove, Possible, IsCounter;
    if moves == [] {
      TallyBound(s.workers, InGate(db, ty, ip));
      PossibleBound(At(s.w.store, db, FailedKey(ty, ip)), s.w.now, Tally(s.workers, InGate(db, ty, ip)), |s.workers|,
                    MaxAllowed(ty), start);
    } else {
      MoveSpends(env, s, moves[0], db, ty, ip, start);
      PassesArePossible(env, Do(env, s, moves[0]), moves[1..], db, ty, ip, start);
    }
  }

  /** One counter database. */
  lemma DatabaseBounded(env: Env, n: nat, moves: seq<Move>, db: int, ty: PostType, ip: string, start: int)
    ensures PassesIn(env, Start(n), moves, db, ty, ip, start)
         <= n + match ty case Signup => 5 case Login => 10 case Admin => 2
  {
    hide Possible;
    TallyBound(Start(n).workers, InGate(db, ty, ip));
    PossibleBound(None, 0, Tally(Start(n).workers, InGate(db, ty, ip)), n, MaxAllowed(ty), start);
    PassesArePossible(env, Start(n), moves, db, ty, ip, start);
  }

  // ----- The shared index -----

  predicate InGateCode(pc: Pc) {
    pc.AtFlag? || pc.AtReconnect? || pc.AtIncr? || pc.AtExpire?
  }

  /** The index reads as the type of the worker that moves. */
  predicate TrueMove(s: Sys, m: Move) {
    Works(s, m) ==> m.db == IpCountDb(s.workers[m.i].ty)
  }

  ghost predicate TrueIndex(env: Env, s: Sys, moves: seq<Move>)
    requires SysOk(s)
    decreases |moves|
  {
    moves != [] ==> TrueMove(s, moves[0]) && TrueIndex(env, Do(env, s, moves[0]), moves[1..])
  }

  /** Every worker in the gate was handed one of the three databases, its own if `own`. */
  ghost predicate Handed(s: Sys, own: bool) {
    forall i :: 0 <= i < |s.workers| && InGateCode(s.workers[i].pc) ==>
      if own then s.workers[i].pc.db == IpCountDb(s.workers[i].ty) else IsIpCountDb(s.workers[i].pc.db)
  }

  lemma StepHands(env: Env, w: World, ty: PostType, rq: Request, pc: Pc, db: int)
    requires PcOk(pc)
    ensures var pc' := Step(env, w, ty, rq, pc, db).1;
            InGateCode(pc') ==> pc'.db == if InGateCode(pc) then pc.db else db
  {
    hide Connect, GetInt, GetString, SetHset, Issue, Send, LoginCheck, DecText, ParseSession, CookieOf,
      FlagIp, GuardKey, NewRecord, FlagBlocks, MaxAllowed, SetVerdict, ExpireVerdict, Passed, Noted;
  }

  lemma MoveHands(env: Env, s: Sys, m: Move, own: bool)
    requires SysOk(s) && Handed(s, own) && (own ==> TrueMove(s, m))
    ensures Handed(Do(env, s, m), own)
  {
    hide Step, Classify;
    if Works(s, m) {
      var me := s.workers[m.i];
      StepHands(env, s.w.(link := me.link), me.ty, me.rq, me.pc, m.db);
    }
  }

  function PassesAnywhere(env: Env, s: Sys, moves: seq<Move>, ty: PostType, ip: string, start: int): nat
    requires SysOk(s)
  {
    PassesIn(env, s, moves, IpCountDb(Signup), ty, ip, start) + PassesIn(env, s, moves, IpCountDb(Login), ty, ip, start)
    + PassesIn(env, s, moves, IpCountDb(Admin), ty, ip, start)
  }

  lemma {:induction false} PassesByDatabase(env: Env, s: Sys, moves: seq<Move>, own: bool, ty: PostType, ip: string,
                                            start: int)
    requires SysOk(s) && Handed(s, own) && (own ==> TrueIndex(env, s, moves))
    ensures GatePasses(env, s, moves, ty, ip, start)
         == if own then PassesIn(env, s, moves, IpCountDb(ty), ty, ip, start)
            else PassesAnywhere(env, s, moves, ty, ip, start)
    decreases |moves|
  {
    hide Do;
    if moves != [] {
      MoveHands(env, s, moves[0], own);
      PassesByDatabase(env, Do(env, s, moves[0]), moves[1..], own, ty, ip, start);
    }
  }

  /** The gate with n workers. In any interleaving, under any failures and delays: as long as
      the shared index reads true, at most 5 signup, 10 login or 2 admin calls of an address,
      and one more for each worker, pass the gate within 3610 s; and at most three times as
      many whatever the index reads, for then each of the three databases has a counter. */
  lemma GateBounded(env: Env, n: nat, moves: seq<Move>, ty: PostType, ip: string, start: int)
    ensures var limit := match ty case Signup => 5 case Login => 10 case Admin => 2;
            && GatePasses(env, Start(n), moves, ty, ip, start) <= 3 * (limit + n)
            && (TrueIndex(env, Start(n), moves) ==> GatePasses(env, Start(n), moves, ty, ip, start) <= limit + n)
  {
    hide GatePasses, PassesIn, TrueIndex;
    PassesByDatabase(env, Start(n), moves, false, ty, ip, start);
    DatabaseBounded(env, n, moves, IpCountDb(Signup), ty, ip, start);
    DatabaseBounded(env, n, moves, IpCountDb(Login), ty, ip, start);
    DatabaseBounded(env, n, moves, IpCountDb(Admin), ty, ip, start);
    if TrueIndex(env, Start(n), moves) {
      PassesByDatabase(env, Start(n), moves, true, ty, ip, start);
      DatabaseBounded(env, n, moves, IpCountDb(ty), ty, ip, start);
    }
  }

  // ----- Signups within the hour -----

  /** The move sets the flag of a signup of this address that names its flag by it. */
  predicate FlagMove(env: Env, s: Sys, m: Move, ip: string)
    requires SysOk(s)
  {
    && Works(s, m)
    && var me := s.workers[m.i];
       && me.pc.AtSetFlag? && me.ty == Signup && me.rq.ip == ip && FlagIp(env.form, me.rq) == ip
       && Do(env, s, m).workers[m.i].pc.AtHSet?
  }

  /** How many such signups set their flag within 3600 s from `start`. */
  function FlagsSet(env: Env, s: Sys, moves: seq<Move>, ip: string, start: int): nat
    requires SysOk(s)
    decreases |moves|
  {
    if moves == [] then 0
    else
      var s' := Do(env, s, moves[0]);
      Bit(FlagMove(env, s, moves[0], ip) && start <= s'.w.now < start + FLAG_LIFE)
      + FlagsSet(env, s', moves[1..], ip, start)
  }

  /** The worker has found no flag, and has not set its own yet. */
  predicate PastCheck(pc: Pc) {
    match pc
    case AtReconnect(_, flags) => flags == 0
    case AtIncr(_, flags) => flags == 0
    case AtExpire(_, flags, _) => flags == 0
    case AtLookup(_) => true
    case AtGuard(_) => true
    case AtSetFlag(_) => true
    case _ => false
  }

  predicate SameAddress(form: Form, me: Worker, ip: string) {
    me.ty == Signup && me.rq.ip == ip && FlagIp(form, me.rq) == ip
  }

  function OnTheWay(form: Form, ip: string): Worker -> bool {
    (me: Worker) => SameAddress(form, me, ip) && PastCheck(me.pc)
  }

  /** The flag stays alive through the window. */
  predicate Lasting(entry: Option<Entry>, start: int) {
    entry.Some? && entry.value.expiry.Some? && start + FLAG_LIFE <= entry.value.expiry.value
  }

  /** The flags that can still be set in the window: one for each worker, and as soon as
      there is a flag, one for each worker that did not see it. */
  function Pending(entry: Option<Entry>, t: int, onTheWay: nat, n: nat, start: int): nat {
    if t >= start + FLAG_LIFE then 0
    else if t >= start && Lasting(entry, start) then onTheWay
    else n
  }

  function PendingIn(form: Form, s: Sys, ip: string, start: int): nat {
    Pending(At(s.w.store, IpCountDb(Signup), OkKey(Signup, ip)), s.w.now, Tally(s.workers, OnTheWay(form, ip)),
            |s.workers|, start)
  }

  /** The entry of a flag is left alone or set anew. */
  predicate Reset(before: Option<Entry>, after: Option<Entry>, t: int) {
    after == before || (after.Some? && after.value.expiry == Some(t + FLAG_LIFE))
  }

  lemma FlagEntryStep(env: Env, w: World, ty: PostType, rq: Request, pc: Pc, db: int, ip: string)
    requires PcOk(pc)
    ensures var w' := Step(env, w, ty, rq, pc, db).0;
            && w.now <= w'.now
            && Reset(At(w.store, IpCountDb(Signup), OkKey(Signup, ip)),
                     At(w'.store, IpCountDb(Signup), OkKey(Signup, ip)), w'.now)
  {
    hide Step, At, Reset, FlagIp;
    var k := OkKey(Signup, ip);
    if Targets(env.form, ty, rq, pc, db, IpCountDb(Signup), k) {
      assert pc.AtSetFlag?;
      FlagPut(env, w, ty, rq, pc, db);
    } else {
      StepSpares(env, w, ty, rq, pc, db, IpCountDb(Signup), k);
      ResetSame(At(w.store, IpCountDb(Signup), k), Step(env, w, ty, rq, pc, db).0.now);
    }
  }

  lemma ResetSame(entry: Option<Entry>, t: int)
    ensures Reset(entry, entry, t)
  {
  }

  lemma FlagPut(env: Env, w: World, ty: PostType, rq: Request, pc: Pc, db: int)
    requires pc.AtSetFlag? && PcOk(pc)
    ensures var (w', pc') := Step(env, w, ty, rq, pc, db);
            var k := OkKey(Signup, FlagIp(env.form, rq));
            && w.now <= w'.now && Reset(At(w.store, db, k), At(w'.store, db, k), w'.now) && !PastCheck(pc')
            && (pc'.AtHSet? ==>
                At(w'.store, db, k).Some? && At(w'.store, db, k).value.expiry == Some(w'.now + FLAG_LIFE))
  {
    hide Settle, FlagIp, DecText;
  }

  /** Only its own look at the flag puts a worker on the way, and only if there is none. */
  lemma WayStep(env: Env, w: World, rq: Request, pc: Pc, db: int)
    requires PcOk(pc) && PastCheck(Step(env, w, Signup, rq, pc, db).1)
    ensures PastCheck(pc) || (pc.AtFlag? && !Live(w.store, pc.db, OkKey(Signup, rq.ip),
                                                 Step(env, w, Signup, rq, pc, db).0.now))
  {
    hide Connect, GetInt, GetString, SetHset, Issue, Send, LoginCheck, DecText, ParseSession, CookieOf,
      FlagIp, GuardKey, NewRecord, SetVerdict, ExpireVerdict, Passed, Noted, Live;
    if pc.AtFlag? { NoFlagSeen(env.tape, w, pc.db, OkKey(Signup, rq.ip)); }
  }

  lemma NoFlagSeen(tape: Tape, w: World, db: int, k: Key)
    ensures var flag := GetInt(tape, w, db, Exists(k));
            flag.rt == 0 && flag.n == 0 ==> !Live(w.store, db, k, flag.w.now)
  {
    hide Settle;
  }

  lemma NothingSet(before: Option<Entry>, after: Option<Entry>, t: int, t': int, way: nat, way': nat, n: nat,
                   start: int)
    requires t <= t' && Reset(before, after, t') && way <= n && way' <= n
    requires way' > way ==> !(before.Some? && before.value.expiry.Some? && t' < before.value.expiry.value)
    ensures Pending(after, t', way', n, start) <= Pending(before, t, way, n, start)
  {
  }

  lemma OneSet(before: Option<Entry>, after: Option<Entry>, t: int, t': int, way: nat, n: nat, start: int)
    requires t <= t' && 1 <= way <= n && after.Some? && after.value.expiry == Some(t' + FLAG_LIFE)
    ensures Bit(start <= t' < start + FLAG_LIFE) + Pending(after, t', way - 1, n, start)
         <= Pending(before, t, way, n, start)
  {
  }

  lemma WorkSets(env: Env, s: Sys, m: Move, ip: string, start: int)
    requires SysOk(s) && Handed(s, true) && Works(s, m) && TrueMove(s, m)
    ensures var s' := Do(env, s, m);
            Bit(FlagMove(env, s, m, ip) && start <= s'.w.now < start + FLAG_LIFE) + PendingIn(env.form, s', ip, start)
            <= PendingIn(env.form, s, ip, start)
  {
    hide Step, At, Tally, Pending, Reset, FlagIp, PastCheck;
    var s', me, p := Do(env, s, m), s.workers[m.i], OnTheWay(env.form, ip);
    var w, db, k := s.w.(link := me.link), IpCountDb(Signup), OkKey(Signup, ip);
    TallyBound(s.workers, p);
    TallyBound(s'.workers, p);
    TallyUpdate(s.workers, m.i, s'.workers[m.i], p);
    FlagEntryStep(env, w, me.ty, me.rq, me.pc, m.db, ip);
    var before, after, t, t' := At(s.w.store, db, k), At(s'.w.store, db, k), s.w.now, s'.w.now;
    var way, way', n := Tally(s.workers, p), Tally(s'.workers, p), |s.workers|;
    if FlagMove(env, s, m, ip) {
      FlagPut(env, w, me.ty, me.rq, me.pc, m.db);
      assert PastCheck(me.pc) by { SettingIsPast(me.pc); }
      OneSet(before, after, t, t', way, n, start);
    } else {
      if way' > way {
        WayStep(env, w, me.rq, me.pc, m.db);
        DeadEntry(w.store, db, k, t');
      }
      NothingSet(before, after, t, t', way, way', n, start);
    }
  }

  lemma SettingIsPast(pc: Pc)
    requires pc.AtSetFlag?
    ensures PastCheck(pc)
  {
  }

  lemma DeadEntry(st: Store, db: int, k: Key, t: int)
    requires !Live(st, db, k, t)
    ensures At(st, db, k).Some? && At(st, db, k).value.expiry.Some? ==> At(st, db, k).value.expiry.value <= t
  {
  }

  lemma MoveSets(env: Env, s: Sys, m: Move, ip: string, start: int)
    requires SysOk(s) && Handed(s, true) && TrueMove(s, m)
    ensures var s' := Do(env, s, m);
            Bit(FlagMove(env, s, m, ip) && start <= s'.w.now < start + FLAG_LIFE) + PendingIn(env.form, s', ip, start)
            <= PendingIn(env.form, s, ip, start)
  {
    hide Step, At, Tally, Pending, FlagIp, Classify;
    if Works(s, m) {
      WorkSets(env, s, m, ip, start);
    } else {
      var s', p := Do(env, s, m), OnTheWay(env.form, ip);
      if m.Begin? && m.i < |s.workers| {
        TallyUpdate(s.workers, m.i, s'.workers[m.i], p);
        assert s.workers[m.i := s.workers[m.i]] == s.workers;
      }
      assert Tally(s'.workers, p) == Tally(s.workers, p);
    }
  }

  lemma {:induction false} FlagsArePending(env: Env, s: Sys, moves: seq<Move>, ip: string, start: int)
    requires SysOk(s) && Handed(s, true) && TrueIndex(env, s, moves)
    ensures FlagsSet(env, s, moves, ip, start) <= PendingIn(env.form, s, ip, start)
    decreases |moves|
  {
    hide Do, FlagMove, PendingIn, TrueMove;
    if moves != [] {
      MoveSets(env, s, moves[0], ip, start);
      MoveHands(env, s, moves[0], true);
      FlagsArePending(env, Do(env, s, moves[0]), moves[1..], ip, start);
    }
  }

  /** The hour rule with n workers, in either form. As long as the shared index reads true, in
      any interleaving and under any failures at most n signups of an address that name their
      flag by it set that flag within 3600 s: one for each worker. */
  lemma AccountsBounded(env: Env, n: nat, moves: seq<Move>, ip: string, start: int)
    requires TrueIndex(env, Start(n), moves)
    ensures FlagsSet(env, Start(n), moves, ip, start) <= n
  {
    hide TrueIndex, FlagsSet;
    FlagsArePending(env, Start(n), moves, ip, start);
  }
}
