/** A login that was let in proved that it knows a stored hash: in every state that any number
    of workers can reach, under any failures (src/http_server_main_loop_handler.c,
    src/calc_hash_for_login.c). */
module LoginSafety {
  import opened Common
  import opened RedisStore
  import opened HttpParser
  import opened Hashing
  import opened PostPath
  import opened Protocol
  import opened Interleaving
  import opened Safety

  /** An HSET of the run gave the name's record this hash. */
  ghost predicate HashStored(log: seq<Event>, user: string, stored: string) {
    exists j :: 0 <= j < |log| && StoresHash(log[j], user, stored)
  }

  predicate StoresHash(e: Event, user: string, stored: string) {
    && e.Ran? && e.cmd.HSet? && e.cmd.key == UserKey(Login, user)
    && "hash" in e.cmd.fields && e.cmd.fields["hash"] == stored
  }

  /** The submitted hash answers, in its session, to a hash that was stored for the name. */
  ghost predicate Proven(hash: Hasher, log: seq<Event>, user: string, passwd: string, salt: string) {
    exists stored :: HashStored(log, user, stored) && hash(salt + ":" + user + ":" + stored, salt) == passwd
  }

  ghost predicate LoginOk(hash: Hasher, log: seq<Event>, me: Worker) {
    match me.pc
    case AtSalt(p, stored) => p.Submit? && |stored| == 64 && HashStored(log, p.user, stored)
    case Closed(rt, _) =>
      rt == 0 && me.ty != Signup ==>
        var p := ParseSession(me.ty, me.rq.json);
        p.Submit? && me.rq.argonOk && Proven(hash, log, p.user, p.passwd, p.salt)
    case _ => true
  }

  ghost predicate LoginsOk(hash: Hasher, s: Sys) {
    forall i :: 0 <= i < |s.workers| ==> LoginOk(hash, s.w.log, s.workers[i])
  }

  lemma StoredStays(log: seq<Event>, log': seq<Event>, user: string, stored: string)
    requires log <= log' && HashStored(log, user, stored)
    ensures HashStored(log', user, stored)
  {
    var j :| 0 <= j < |log| && StoresHash(log[j], user, stored);
    assert log'[j] == log[j];
  }

  lemma LoginStaysOk(hash: Hasher, log: seq<Event>, log': seq<Event>, me: Worker)
    requires log <= log' && LoginOk(hash, log, me)
    ensures LoginOk(hash, log', me)
  {
    hide ParseSession, HashStored;
    if me.pc.AtSalt? { StoredStays(log, log', me.pc.p.user, me.pc.hash); }
    else if me.pc.Closed? && me.pc.rt == 0 && me.ty != Signup {
      var p := ParseSession(me.ty, me.rq.json);
      var stored :| HashStored(log, p.user, stored) && hash(p.salt + ":" + p.user + ":" + stored, p.salt) == p.passwd;
      StoredStays(log, log', p.user, stored);
    }
  }

  /** A hash that a worker reads was stored by an HSET. */
  lemma ReadWasStored(env: Env, w: World, user: string)
    requires StoreOk(w)
    ensures var got := GetString(env.tape, w, SALT_LOGIN_DB, PASSWD_LEN, HGet(UserKey(Login, user), "hash"));
            w.log <= got.w.log && (got.rt == 0 ==> |got.s| == 64 && HashStored(got.w.log, user, got.s))
  {
    hide Settle;
    var k := UserKey(Login, user);
    var got := GetString(env.tape, w, SALT_LOGIN_DB, PASSWD_LEN, HGet(k, "hash"));
    if got.rt == 0 {
      var entry := w.store[(SALT_LOGIN_DB, k)];
      assert EntryOk(w.log, SALT_LOGIN_DB, k, entry);
      var j :| 0 <= j < |w.log| && w.log[j].Ran? && w.log[j].db == SALT_LOGIN_DB
               && w.log[j].cmd == HSet(k, entry.value.fields);
      assert got.w.log[j] == w.log[j];
    }
  }

  lemma HashStepOk(env: Env, w: World, me: Worker, db: int)
    requires StoreOk(w) && PcOk(me.pc) && me.pc.AtHash?
    ensures LoginOk(env.hash, Advance(env, w, me, db).0.log, Advance(env, w, me, db).1)
  {
    hide GetString, HashStored;
    ReadWasStored(env, w.(link := me.link), me.pc.p.user);
  }

  lemma SaltStepOk(env: Env, w: World, me: Worker, db: int)
    requires PcOk(me.pc) && me.pc.AtSalt? && LoginOk(env.hash, w.log, me) && ParseSession(me.ty, me.rq.json) == me.pc.p
    ensures LoginOk(env.hash, Advance(env, w, me, db).0.log, Advance(env, w, me, db).1)
  {
    hide ParseSession, LoginCheck, HashStored, DecText, Settle, Effect, TrueReply;
    var p, stored := me.pc.p, me.pc.hash;
    ParsedSizes(me.ty, me.rq);
    var (w', me') := Advance(env, w, me, db);
    StoredStays(w.log, w'.log, p.user, stored);
    if me'.pc.rt == 0 {
      CheckProves(env.hash, me.rq.argonOk, p, stored);
      assert Proven(env.hash, w'.log, p.user, p.passwd, p.salt);
    }
  }

  lemma ParsedSizes(ty: PostType, rq: Request)
    requires ParseSession(ty, rq.json).Submit?
    ensures |ParseSession(ty, rq.json).passwd| == 64 && |ParseSession(ty, rq.json).salt| == 32
  {
  }

  lemma CheckProves(hash: Hasher, argonOk: bool, p: Parsed, stored: string)
    requires p.Submit? && |p.passwd| == 64 && |p.salt| == 32 && |stored| == 64
    requires LoginCheck(hash, argonOk, p.user, p.salt, stored, p.passwd) == 0
    ensures argonOk && hash(p.salt + ":" + p.user + ":" + stored, p.salt) == p.passwd
  {
  }

  /** Only a signup's EXPIRE and a login's comparison lead to 0. */
  lemma OtherStepOk(env: Env, w: World, me: Worker, db: int)
    requires PcOk(me.pc) && Active(me.pc) && !me.pc.AtHash? && !me.pc.AtSalt? && (me.pc.AtHExpire? ==> me.ty == Signup)
    ensures LoginOk(env.hash, Advance(env, w, me, db).0.log, Advance(env, w, me, db).1)
  {
    hide Connect, GetInt, GetString, SetHset, Issue, Send, DecText, ParseSession, CookieOf, FlagIp, GuardKey, NewRecord,
      FlagBlocks, MaxAllowed, SetVerdict, ExpireVerdict, Passed, Noted, Proven, HashStored;
  }

  lemma StepLoginOk(env: Env, w: World, me: Worker, db: int)
    requires StoreOk(w) && PcOk(me.pc) && Active(me.pc) && WorkerOk(env.form, w.log, me) && LoginOk(env.hash, w.log, me)
    ensures LoginOk(env.hash, Advance(env, w, me, db).0.log, Advance(env, w, me, db).1)
  {
    hide Advance, LoginOk, StoreOk, Checked, ParseSession, NotBarred;
    if me.pc.AtHash? { HashStepOk(env, w, me, db); }
    else if me.pc.AtSalt? { SaltStepOk(env, w, me, db); }
    else { OtherStepOk(env, w, me, db); }
  }

  lemma MoveLoginsOk(env: Env, s: Sys, m: Move)
    requires SysOk(s) && SysInv(env.form, s) && LoginsOk(env.hash, s)
    ensures LoginsOk(env.hash, Do(env, s, m))
  {
    hide Step, Classify, WorkerOk, LogOk, StoreOk, LoginOk;
    var s' := Do(env, s, m);
    if m.Go? && s' != s {
      StepLoginOk(env, s.w, s.workers[m.i], m.db);
      StepKeeps(env, s.w, s.workers[m.i], m.db);
      assert s'.workers[m.i] == Advance(env, s.w, s.workers[m.i], m.db).1;
      assert s'.w == Advance(env, s.w, s.workers[m.i], m.db).0;
      forall i | 0 <= i < |s'.workers| && i != m.i ensures LoginOk(env.hash, s'.w.log, s'.workers[i]) {
        LoginStaysOk(env.hash, s.w.log, s'.w.log, s.workers[i]);
      }
    } else if s' != s {
      assert LoginOk(env.hash, s'.w.log, s'.workers[m.i]) by { AtGateOk(env.hash, s'.w.log, s'.workers[m.i]); }
    }
  }

  lemma AtGateOk(hash: Hasher, log: seq<Event>, me: Worker)
    requires me.pc.AtGate?
    ensures LoginOk(hash, log, me)
  {
  }

  lemma {:induction false} RunLoginsOk(env: Env, s: Sys, moves: seq<Move>)
    requires SysOk(s) && SysInv(env.form, s) && LoginsOk(env.hash, s)
    ensures LoginsOk(env.hash, RunAll(env, s, moves))
    decreases |moves|
  {
    hide Do, SysInv, LoginsOk;
    if moves != [] {
      MoveLoginsOk(env, s, moves[0]);
      MoveKeeps(env, s, moves[0]);
      RunLoginsOk(env, Do(env, s, moves[0]), moves[1..]);
    }
  }

  /** Whoever is let in knew a stored hash. In every interleaving and under every failure: a
      login or admin submission that returned 0 submitted the answer, in its session, to a hash
      that an HSET of the run had stored for its name. */
  lemma LoginProvenance(env: Env, n: nat, moves: seq<Move>, i: nat)
    requires i < n && RunAll(env, Start(n), moves).workers[i].pc.Closed?
    requires RunAll(env, Start(n), moves).workers[i].pc.rt == 0 && RunAll(env, Start(n), moves).workers[i].ty != Signup
    ensures var s := RunAll(env, Start(n), moves);
            var p := ParseSession(s.workers[i].ty, s.workers[i].rq.json);
            p.Submit? && s.workers[i].rq.argonOk && Proven(env.hash, s.w.log, p.user, p.passwd, p.salt)
  {
    hide RunAll, ParseSession, Proven;
    assert SysInv(env.form, Start(n)) && LoginsOk(env.hash, Start(n));
    RunLoginsOk(env, Start(n), moves);
    assert LoginOk(env.hash, RunAll(env, Start(n), moves).w.log, RunAll(env, Start(n), moves).workers[i]);
  }
}
