/** Every command that any run sends is one whose text is faithful. */
module SentCommands {
  import opened Common
  import opened RedisStore
  import opened TextScan
  import opened Validators
  import opened HttpText
  import opened HttpParser
  import opened Hashing
  import opened Protocol
  import opened Interleaving
  import opened Wire

  /** A plain client address and the 32-digit tokens of the random generator. */
  predicate RequestFits(form: Form, rq: Request) {
    IpText(rq.ip) && IpText(FlagIp(form, rq)) && HexToken(rq.sess, SALT_LEN) && HexToken(rq.sesv, SALT_LEN)
  }

  predicate SubmissionFits(p: Parsed) {
    p.Submit? ==> UsernameOk(p.user) && HexOk(p.passwd, PASSWD_LEN) && HexOk(p.salt, SALT_LEN)
  }

  predicate PcFits(pc: Pc) {
    match pc
    case AtNewSession(user) => UsernameOk(user)
    case AtNewSalt(user) => UsernameOk(user)
    case AtLookup(p) => SubmissionFits(p)
    case AtGuard(p) => SubmissionFits(p)
    case AtSetFlag(p) => SubmissionFits(p)
    case AtHSet(p) => SubmissionFits(p)
    case AtHExpire(p) => SubmissionFits(p)
    case AtHash(p) => SubmissionFits(p)
    case AtSalt(p, _) => SubmissionFits(p)
    case _ => true
  }

  /** The command a worker sends next; None where it only connects. */
  function NextCmd(form: Form, ty: PostType, rq: Request, pc: Pc): Option<Cmd>
    requires PcOk(pc)
  {
    match pc
    case AtFlag(_) => Some(Exists(OkKey(ty, rq.ip)))
    case AtIncr(_, _) => Some(Incr(FailedKey(ty, rq.ip)))
    case AtExpire(_, _, _) => Some(Expire(FailedKey(ty, rq.ip), SIGNUP_FAILED_TTL))
    case AtNewSession(user) => Some(SetEx(SessKey(ty, user, rq.sesv), rq.sess, SESS_TTL))
    case AtNewSalt(user) => Some(HGet(UserKey(Login, user), "salt"))
    case AtLookup(p) => Some(Get(SessKey(ty, p.user, p.salt)))
    case AtGuard(p) => Some(Exists(GuardKey(form, ty, p.user)))
    case AtSetFlag(p) => Some(SetEx(OkKey(Signup, FlagIp(form, rq)), "1", SIGNUP_OK_TTL))
    case AtHSet(p) => Some(HSet(UserKey(Login, p.user), NewRecord(p.passwd, p.salt)))
    case AtHExpire(p) => Some(Expire(UserKey(Login, p.user), NEW_USER_TTL))
    case AtHash(p) => Some(HGet(UserKey(Login, p.user), "hash"))
    case AtSalt(p, _) => Some(HGet(UserKey(Login, p.user), "salt"))
    case _ => None
  }

  lemma HexValue(s: string, n: nat)
    requires HexToken(s, n) && 0 < n <= 64
    ensures ValueFits(s)
  {
    HexWord(s, n);
  }

  lemma RecordFits(p: Parsed)
    requires p.Submit? && SubmissionFits(p)
    ensures Sendable(HSet(UserKey(Login, p.user), NewRecord(p.passwd, p.salt)))
  {
    hide UsernameOk;
    HexValue(p.passwd, PASSWD_LEN);
    HexValue(p.salt, SALT_LEN);
    assert ValueFits("0") && ValueFits("active");
  }

  lemma NextIsSendable(form: Form, ty: PostType, rq: Request, pc: Pc)
    requires PcOk(pc) && PcFits(pc) && RequestFits(form, rq) && NextCmd(form, ty, rq, pc).Some?
    ensures Sendable(NextCmd(form, ty, rq, pc).value)
  {
    hide UsernameOk, ValueFits, NewRecord, FlagIp, IpText;
    if pc.AtNewSession? { HexValue(rq.sess, SALT_LEN); }
    if pc.AtSetFlag? { assert ValueFits("1") by { OneFits(); } }
    if pc.AtHSet? { RecordFits(pc.p); }
  }

  lemma OneFits()
    ensures ValueFits("1")
  {
  }

  lemma BehindGateFits(ty: PostType, rq: Request)
    ensures PcFits(BehindGate(ty, rq))
  {
    hide UsernameOk, HexOk, HeadEnd, CleanUser;
    var p := ParseSession(ty, rq.json);
    if p.NewSession? || p.Submit? { CleanIsOk(p.user); }
  }

  lemma CleanIsOk(user: string)
    requires CleanUser(user)
    ensures UsernameOk(user)
  {
  }

  lemma StepFits(env: Env, w: World, ty: PostType, rq: Request, pc: Pc, db: int)
    requires PcOk(pc) && PcFits(pc)
    ensures PcFits(Step(env, w, ty, rq, pc, db).1)
  {
    hide Connect, GetInt, GetString, SetHset, Issue, Send, LoginCheck, DecText, ParseSession, FlagIp, GuardKey,
      NewRecord, FlagBlocks, MaxAllowed, SetVerdict, ExpireVerdict, Passed, Noted, BehindGate, SubmissionFits,
      UsernameOk;
    BehindGateFits(ty, rq);
  }

  /** Commands among the events of a log are all sendable. */
  ghost predicate LogSendable(log: seq<Event>) {
    forall i :: 0 <= i < |log| && log[i].Ran? ==> Sendable(log[i].cmd)
  }

  /** Between w and w' no other command than cmd was executed. */
  ghost predicate SentOnly(w: World, w': World, cmd: Option<Cmd>) {
    && w.log <= w'.log
    && forall i :: |w.log| <= i < |w'.log| && w'.log[i].Ran? ==> Some(w'.log[i].cmd) == cmd
  }

  lemma HelperSends(env: Env, w: World, d: int, len: nat, ttl: int, cmd: Cmd)
    ensures SentOnly(w, GetInt(env.tape, w, d, cmd).w, Some(cmd))
    ensures SentOnly(w, GetString(env.tape, w, d, len, cmd).w, Some(cmd))
    ensures cmd.SetEx? ==> SentOnly(w, SetHset(env.tape, w, d, ttl, cmd).w, Some(cmd))
    ensures SentOnly(w, Issue(env.tape, w, d, cmd).0, Some(cmd)) && SentOnly(w, Send(env.tape, w, d, cmd).0, Some(cmd))
  {
    hide Effect, TrueReply, Settle, Truthful;
  }

  /** A step executes no other command than the next one. */
  lemma StepSends(env: Env, w: World, ty: PostType, rq: Request, pc: Pc, db: int)
    requires PcOk(pc)
    ensures SentOnly(w, Step(env, w, ty, rq, pc, db).0, NextCmd(env.form, ty, rq, pc))
  {
    hide LoginCheck, DecText, ParseSession, FlagIp, GuardKey, NewRecord, FlagBlocks, MaxAllowed, Effect, TrueReply,
      Settle, Truthful, BehindGate, CookiePc, AfterSalt, AfterGuard, GetInt, GetString, SetHset, Issue, Send;
    var cmd := NextCmd(env.form, ty, rq, pc);
    if cmd.Some? {
      var d := match pc
        case AtFlag(d) => d
        case AtIncr(d, _) => d
        case AtExpire(d, _, _) => d
        case AtNewSession(_) => db
        case AtLookup(_) => db
        case AtSetFlag(_) => db
        case _ => SALT_LOGIN_DB;
      var len, ttl := if pc.AtHash? then PASSWD_LEN else SALT_LEN, if pc.AtSetFlag? then SIGNUP_OK_TTL else SESS_TTL;
      HelperSends(env, w, d, len, ttl, cmd.value);
    }
  }

  lemma StepKeepsSendable(env: Env, w: World, ty: PostType, rq: Request, pc: Pc, db: int)
    requires PcOk(pc) && PcFits(pc) && RequestFits(env.form, rq) && LogSendable(w.log)
    ensures LogSendable(Step(env, w, ty, rq, pc, db).0.log)
  {
    hide Step, NextCmd, RequestFits, PcFits, Sendable;
    StepSends(env, w, ty, rq, pc, db);
    var log := Step(env, w, ty, rq, pc, db).0.log;
    forall i | 0 <= i < |log| && log[i].Ran? ensures Sendable(log[i].cmd) {
      if i >= |w.log| { NextIsSendable(env.form, ty, rq, pc); }
    }
  }

  ghost predicate SysFits(form: Form, s: Sys) {
    && LogSendable(s.w.log)
    && forall i :: 0 <= i < |s.workers| ==>
        PcFits(s.workers[i].pc) && (Active(s.workers[i].pc) ==> RequestFits(form, s.workers[i].rq))
  }

  ghost predicate MoveFits(form: Form, m: Move) {
    m.Begin? ==> RequestFits(form, m.rq)
  }

  lemma MoveKeepsFit(env: Env, s: Sys, m: Move)
    requires SysOk(s) && SysFits(env.form, s) && MoveFits(env.form, m)
    ensures SysFits(env.form, Do(env, s, m))
  {
    hide Step, PcFits, RequestFits, LogSendable;
    var s' := Do(env, s, m);
    if m.Go? && s' != s {
      var me := s.workers[m.i];
      StepFits(env, s.w.(link := me.link), me.ty, me.rq, me.pc, m.db);
      StepKeepsSendable(env, s.w.(link := me.link), me.ty, me.rq, me.pc, m.db);
    }
    if m.Begin? { GateFits(); }
  }

  lemma GateFits()
    ensures PcFits(AtGate) && PcFits(Idle)
  {
  }

  lemma {:induction false} RunKeepsFit(env: Env, s: Sys, moves: seq<Move>)
    requires SysOk(s) && SysFits(env.form, s) && forall m :: m in moves ==> MoveFits(env.form, m)
    ensures SysFits(env.form, RunAll(env, s, moves))
    decreases |moves|
  {
    hide Do, SysFits, MoveFits;
    if moves != [] {
      assert moves[0] in moves;
      assert forall m :: m in moves[1..] ==> m in moves;
      MoveKeepsFit(env, s, moves[0]);
      RunKeepsFit(env, Do(env, s, moves[0]), moves[1..]);
    }
  }

  /** Faithful commands over every run. However the workers interleave and whatever fails,
      the command that any worker is about to send fits its buffer, is free of format
      signs, is cut by the client library into exactly its intended arguments, and can be
      told from every other such command; so an answered one is executed. */
  lemma EveryCommandFaithful(env: Env, n: nat, moves: seq<Move>, i: nat)
    requires forall m :: m in moves ==> MoveFits(env.form, m)
    requires i < n
    requires NextCmd(env.form, RunAll(env, Start(n), moves).workers[i].ty, RunAll(env, Start(n), moves).workers[i].rq,
                              RunAll(env, Start(n), moves).workers[i].pc).Some?
    ensures var me := RunAll(env, Start(n), moves).workers[i];
            var cmd := NextCmd(env.form, me.ty, me.rq, me.pc).value;
            && Sendable(cmd) && Intact(cmd)
            && |CmdText(cmd)| < 1024 && Free(CmdText(cmd), {'%', '\0'}) && Reads(Tokens(CmdText(cmd), SPACE), cmd)
            && forall other :: Sendable(other) && CmdText(other) == CmdText(cmd) ==> other == cmd
  {
    hide RunAll, CmdText, Sendable, Args, Reads, RequestFits, PcFits, MoveFits;
    StartFits(env.form, n);
    RunKeepsFit(env, Start(n), moves);
    var me := RunAll(env, Start(n), moves).workers[i];
    var cmd := NextCmd(env.form, me.ty, me.rq, me.pc).value;
    NextIsSendable(env.form, me.ty, me.rq, me.pc);
    CommandFaithful(cmd);
    SendableIsIntact(cmd);
    forall other | Sendable(other) && CmdText(other) == CmdText(cmd) ensures other == cmd {
      TextDeterminesCommand(other, cmd);
    }
  }

  lemma StartFits(form: Form, n: nat)
    ensures SysFits(form, Start(n))
  {
  }

  /** And so is every command that the store has executed: equal texts in the history
      mean equal commands. */
  lemma HistoryIsReadable(env: Env, n: nat, moves: seq<Move>, a: nat, b: nat)
    requires forall m :: m in moves ==> MoveFits(env.form, m)
    requires a < |RunAll(env, Start(n), moves).w.log| && b < |RunAll(env, Start(n), moves).w.log|
    requires RunAll(env, Start(n), moves).w.log[a].Ran? && RunAll(env, Start(n), moves).w.log[b].Ran?
    ensures var log := RunAll(env, Start(n), moves).w.log;
            && Sendable(log[a].cmd) && Sendable(log[b].cmd)
            && (CmdText(log[a].cmd) == CmdText(log[b].cmd) <==> log[a].cmd == log[b].cmd)
  {
    hide RunAll, CmdText, Sendable, MoveFits;
    StartFits(env.form, n);
    RunKeepsFit(env, Start(n), moves);
    var log := RunAll(env, Start(n), moves).w.log;
    if CmdText(log[a].cmd) == CmdText(log[b].cmd) { TextDeterminesCommand(log[a].cmd, log[b].cmd); }
  }
}
