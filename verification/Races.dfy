/** Two workers and one name: with the guard on the record's key a live record is lost
    exactly by the race between the record check and the HSET behind it
    (src/http_server_main_loop_handler.c, the threads of src/main.c). */
module Races {
  import opened Common
  import opened RedisStore
  import opened HttpText
  import opened HttpParser
  import opened PostPath
  import opened Hashing
  import opened Protocol
  import opened SignupRules
  import opened Interleaving
  import opened SentCommands
  import opened ManyWorkers

  // ----- What a live record means to a worker behind its guard -----

  predicate Writes(e: Event, user: string) {
    e.Ran? && e.cmd.HSet? && e.cmd.key == UserKey(Login, user)
  }

  ghost predicate WrittenSince(log: seq<Event>, from: nat, user: string) {
    exists j :: from <= j < |log| && Writes(log[j], user)
  }

  predicate RecordLive(w: World, user: string) {
    Live(w.store, SALT_LOGIN_DB, UserKey(Login, user), w.now)
  }

  /** The name of a signup that has passed its record check and not sent its HSET. */
  function Guarded(pc: Pc): Option<string> {
    match pc
    case AtSetFlag(Submit(user, _, _)) => Some(user)
    case AtHSet(Submit(user, _, _)) => Some(user)
    case _ => None
  }

  /** Between its record check and its HSET a worker finds a live record only if it was
      written in the meantime. */
  ghost predicate Watched(w: World, me: Worker) {
    Guarded(me.pc).Some? ==>
      && me.guardAt <= |w.log|
      && (RecordLive(w, Guarded(me.pc).value) ==> WrittenSince(w.log, me.guardAt, Guarded(me.pc).value))
  }

  ghost predicate AllWatched(s: Sys) {
    forall i :: 0 <= i < |s.workers| ==> Watched(s.w, s.workers[i])
  }

  /** The worlds before and after a step: a record comes alive only by an HSET. */
  ghost predicate OnlyWrites(w: World, w': World, user: string) {
    w.log <= w'.log && (RecordLive(w', user) ==> RecordLive(w, user) || WrittenSince(w'.log, |w.log|, user))
  }

  lemma CommandWrites(w: World, w': World, cmd: Cmd, user: string)
    requires Stepped(w, w', SALT_LOGIN_DB, cmd) && (cmd.HSet? || cmd.Expire?) && cmd.key == UserKey(Login, user)
    ensures OnlyWrites(w, w', user)
  {
    if w'.log != w.log { assert w'.log[|w.log|] == Ran(w'.now, SALT_LOGIN_DB, cmd); }
  }

  lemma StepWrites(env: Env, w: World, ty: PostType, rq: Request, pc: Pc, db: int, user: string)
    requires PcOk(pc)
    ensures OnlyWrites(w, Step(env, w, ty, rq, pc, db).0, user)
  {
    hide At, RecordLive, OnlyWrites, Effect, TrueReply, Settle, Truthful, ParseSession, HeadEnd, DecText, SetHset,
      GetInt, GetString, NewRecord, FlagIp;
    var w', k := Step(env, w, ty, rq, pc, db).0, UserKey(Login, user);
    if Targets(env.form, ty, rq, pc, db, SALT_LOGIN_DB, k) {
      match pc
      case AtHSet(p) =>
        var cmd := HSet(k, NewRecord(p.passwd, p.salt));
        CommandWrites(w, Issue(env.tape, w, SALT_LOGIN_DB, cmd).0, cmd, user);
      case AtHExpire(p) =>
        var cmd := Expire(k, NEW_USER_TTL);
        CommandWrites(w, Send(env.tape, w, SALT_LOGIN_DB, cmd).0, cmd, user);
    } else {
      StepSpares(env, w, ty, rq, pc, db, SALT_LOGIN_DB, k);
      StepSends(env, w, ty, rq, pc, db);
      SparedWrites(w, w', user);
    }
  }

  lemma SparedWrites(w: World, w': World, user: string)
    requires At(w'.store, SALT_LOGIN_DB, UserKey(Login, user)) == At(w.store, SALT_LOGIN_DB, UserKey(Login, user))
    requires w.now <= w'.now && w.log <= w'.log
    ensures OnlyWrites(w, w', user)
  {
  }

  lemma WatchedStays(w: World, w': World, me: Worker)
    requires Watched(w, me) && (Guarded(me.pc).Some? ==> OnlyWrites(w, w', Guarded(me.pc).value))
    ensures Watched(w', me)
  {
    hide RecordLive, Guarded;
    if Guarded(me.pc).Some? {
      var user := Guarded(me.pc).value;
      if WrittenSince(w.log, me.guardAt, user) {
        var j :| me.guardAt <= j < |w.log| && Writes(w.log[j], user);
        assert w'.log[j] == w.log[j];
      }
    }
  }

  /** A worker gets behind its guard by its record check alone, which found no record. */
  lemma GuardedStep(env: Env, w: World, ty: PostType, rq: Request, pc: Pc, db: int)
    requires env.form.guardOnRecord && PcOk(pc) && Guarded(Step(env, w, ty, rq, pc, db).1).Some?
    ensures var (w', pc') := Step(env, w, ty, rq, pc, db);
            if pc.AtGuard? then !RecordLive(w', Guarded(pc').value) else Guarded(pc') == Guarded(pc)
  {
    hide RecordLive, Connect, GetInt, GetString, SetHset, Issue, Send, LoginCheck, DecText, ParseSession, HeadEnd,
      CookieOf, FlagIp, NewRecord, FlagBlocks, MaxAllowed, SetVerdict, ExpireVerdict, Passed, Noted;
    if pc.AtGuard? { GuardFound(env.tape, w, pc.p.user); }
  }

  lemma MoverWatched(env: Env, w: World, me: Worker, db: int)
    requires env.form.guardOnRecord && PcOk(me.pc) && Watched(w, me)
    ensures Watched(Advance(env, w, me, db).0, Advance(env, w, me, db).1)
  {
    hide Step, RecordLive, OnlyWrites, Guarded, WrittenSince;
    var w0 := w.(link := me.link);
    var (w', me') := Advance(env, w, me, db);
    if Guarded(me'.pc).Some? {
      GuardedStep(env, w0, me.ty, me.rq, me.pc, db);
      if !me.pc.AtGuard? {
        StepWrites(env, w0, me.ty, me.rq, me.pc, db, Guarded(me.pc).value);
        LinkIsNoWrite(w, me.link, w', Guarded(me.pc).value);
        WatchedStays(w, w', me);
      }
    }
  }

  lemma LinkIsNoWrite(w: World, link: Link, w': World, user: string)
    requires OnlyWrites(w.(link := link), w', user)
    ensures OnlyWrites(w, w', user)
  {
  }

  lemma GuardFound(tape: Tape, w: World, user: string)
    ensures var found := GetInt(tape, w, SALT_LOGIN_DB, Exists(UserKey(Login, user)));
            found.rt == 0 && found.n != 1 ==> !RecordLive(found.w, user)
  {
    hide Settle;
  }

  lemma MoveKeepsWatch(env: Env, s: Sys, m: Move)
    requires env.form.guardOnRecord && SysOk(s) && AllWatched(s)
    ensures AllWatched(Do(env, s, m))
  {
    hide Step, Watched, OnlyWrites, Classify;
    var s' := Do(env, s, m);
    if Works(s, m) {
      var me := s.workers[m.i];
      MoverWatched(env, s.w, me, m.db);
      forall i | 0 <= i < |s.workers| && i != m.i ensures Watched(s'.w, s.workers[i]) {
        var other := s.workers[i];
        if Guarded(other.pc).Some? {
          StepWrites(env, s.w.(link := me.link), me.ty, me.rq, me.pc, m.db, Guarded(other.pc).value);
          LinkIsNoWrite(s.w, me.link, s'.w, Guarded(other.pc).value);
        }
        WatchedStays(s.w, s'.w, other);
      }
    } else if s' != s {
      assert Watched(s'.w, s'.workers[m.i]) by { NotBehindGuard(s'.w, s'.workers[m.i]); }
    }
  }

  lemma NotBehindGuard(w: World, me: Worker)
    requires Guarded(me.pc).None?
    ensures Watched(w, me)
  {
  }

  lemma {:induction false} RunKeepsWatch(env: Env, s: Sys, moves: seq<Move>)
    requires env.form.guardOnRecord && SysOk(s) && AllWatched(s)
    ensures AllWatched(RunAll(env, s, moves))
    decreases |moves|
  {
    hide Do, AllWatched;
    if moves != [] {
      MoveKeepsWatch(env, s, moves[0]);
      RunKeepsWatch(env, Do(env, s, moves[0]), moves[1..]);
    }
  }

  /** A step that changes the content of a live record. */
  ghost predicate Replaces(w: World, w': World, user: string) {
    && RecordOf(w, user).Some? && AliveAt(RecordOf(w, user).value, w'.now)
    && (RecordOf(w', user).None? || RecordOf(w', user).value.value != RecordOf(w, user).value.value)
  }

  lemma OnlyHSetReplaces(env: Env, w: World, ty: PostType, rq: Request, pc: Pc, db: int, user: string)
    requires PcOk(pc) && Replaces(w, Step(env, w, ty, rq, pc, db).0, user)
    ensures pc.AtHSet? && Guarded(pc) == Some(user) && w.now <= Step(env, w, ty, rq, pc, db).0.now
  {
    hide Effect, TrueReply, Settle, Truthful, ParseSession, HeadEnd, DecText, SetHset, GetInt, GetString, NewRecord,
      FlagIp, AliveAt;
    var k := UserKey(Login, user);
    if Targets(env.form, ty, rq, pc, db, SALT_LOGIN_DB, k) {
      if pc.AtHExpire? {
        ExpireKeepsContent(w, Send(env.tape, w, SALT_LOGIN_DB, Expire(k, NEW_USER_TTL)).0, user);
      }
    } else {
      StepSpares(env, w, ty, rq, pc, db, SALT_LOGIN_DB, k);
    }
  }

  lemma ExpireKeepsContent(w: World, w': World, user: string)
    requires Stepped(w, w', SALT_LOGIN_DB, Expire(UserKey(Login, user), NEW_USER_TTL)) && RecordOf(w, user).Some?
    ensures RecordOf(w', user).Some? && RecordOf(w', user).value.value == RecordOf(w, user).value.value
  {
  }

  /** How a live record can be lost, with any number of workers and the guard on the record's
      key: only by a worker's HSET for that name, and only when since that worker's own record
      check the name's record was written by another HSET. */
  lemma OverwriteIsRace(env: Env, n: nat, moves: seq<Move>, m: Move, user: string)
    requires env.form.guardOnRecord
    requires Replaces(RunAll(env, Start(n), moves).w, Do(env, RunAll(env, Start(n), moves), m).w, user)
    ensures var s := RunAll(env, Start(n), moves);
            && m.Go? && m.i < n && s.workers[m.i].pc.AtHSet? && Guarded(s.workers[m.i].pc) == Some(user)
            && s.workers[m.i].guardAt <= |s.w.log| && WrittenSince(s.w.log, s.workers[m.i].guardAt, user)
  {
    hide RunAll, Step, WrittenSince, Classify;
    var s := RunAll(env, Start(n), moves);
    RunKeepsWatch(env, Start(n), moves);
    assert Works(s, m);
    var me := s.workers[m.i];
    OnlyHSetReplaces(env, s.w.(link := me.link), me.ty, me.rq, me.pc, m.db, user);
    assert Watched(s.w, me);
  }
}
