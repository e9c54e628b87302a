/** What lines 87 and 102 of src/http_server_main_loop_handler.c amount to over whole runs:
    when a second signup of an address succeeds within the hour, what becomes of a live
    record, and runs of the code as written in which both rules fail. */
module AsWritten {
  import opened Common
  import opened RedisStore
  import opened Validators
  import opened HttpParser
  import opened Hashing
  import opened PostPath
  import opened Protocol
  import opened History
  import opened GateHistory
  import opened WindowBound
  import opened SignupRules
  import opened Safety
  import opened Client
  import opened Completeness
  import opened StoryExample

  // ----- The hour rule -----

  /** Under the record keys of a name every run leaves records only, and only at loginUser. */
  lemma RunRecords(env: Env, rqs: seq<Request>, user: string)
    ensures var w := Run(env, FRESH, rqs);
            RecordShaped(RecordOf(w, user)) && At(w.store, SALT_LOGIN_DB, UserKey(Signup, user)).None?
  {
    hide Run, Recordable;
    var st := Run(env, FRESH, rqs).store;
    if (SALT_LOGIN_DB, UserKey(Login, user)) in st { RunUserTable(env, rqs, SALT_LOGIN_DB, Login, user); }
    if (SALT_LOGIN_DB, UserKey(Signup, user)) in st { RunUserTable(env, rqs, SALT_LOGIN_DB, Signup, user); }
  }

  lemma AskBlocked(env: Env, w: World, rq: Request, ip: string)
    requires Arrived(rq, Signup, ip) && CheckIp(env.tape, w, IpCountDb(Signup), Signup, ip).rt == 111011
    ensures Serve(env, w, rq).rt == 211021
  {
    hide CheckIp;
  }

  lemma DeadIsGone(w: World, ip: string)
    requires !Live(w.store, IpCountDb(Signup), OkKey(Signup, ip), w.now)
    ensures FlagGone(w, ip)
  {
  }

  /** The hour rule, decided. After any run with a successful signup i, and no later signup
      that names the address of i, an honest signup visit of the same address for an open
      name begins within the hour of i. If i named its flag by its address, the visit is
      refused at once. If it did not, the visit gets its session, and then succeeds when its
      own flag text is plain and fails when that text is cut. The address's counter has room. */
  lemma SecondSignupExactly(env: Env, rqs: seq<Request>, i: nat, user: string, password: string, v: Visit)
    requires SignedUp(env, rqs, i) && NoLaterName(env.form, rqs, i)
    requires Honest(env, Run(env, FRESH, rqs), Signup, user, password, rqs[i].ip, v)
    requires var w := Run(env, FRESH, rqs);
             && Room(w, Signup, rqs[i].ip, 3) && NameOpen(env.form, w, user, Submission(env, w, v).w.now)
             && LookTime(env.tape, w) < FlagTime(env, rqs, i) + FLAG_LIFE
    ensures var w := Run(env, FRESH, rqs);
            if FlagIp(env.form, rqs[i]) == rqs[i].ip then Serve(env, w, v.ask).rt == 211021
            else
              && Serve(env, w, v.ask).rt == 1
              && (FlagPlain(env.form, v.submit) ==> Submission(env, w, v).rt == 0)
              && (FlagCut(env.form, v.submit) ==> Submission(env, w, v).rt == 211101)
  {
    hide Serve, Run, CheckIp, Posts, Arrived, Answers, Stranger, NameOpen, Room, FlagGone, RecordShaped, RecordKept,
      At, NoLaterName, Live, FlagIp, FlagPlain, FlagCut, IpText;
    var w, ip := Run(env, FRESH, rqs), rqs[i].ip;
    if FlagIp(env.form, rqs[i]) == ip {
      FlagBlocksIffNamed(env, rqs, i);
      PostArrives(v.ask, Signup, ip, v.askPost);
      AskBlocked(env, w, v.ask, ip);
    } else {
      OtherFlagLeavesGone(env, rqs, i, w.now);
      DeadIsGone(w, ip);
      RunRecords(env, rqs, user);
      SignupHalf(env, w, user, password, ip, v);
    }
  }

  /** The duplicate rule, decided over runs. After any run that leaves a record which outlives
      an honest signup visit for its name: with the guard on the record's key the visit is
      refused and the record stays. As written it succeeds with a plain flag text, and the
      record is gone; with a flag text that is cut it fails, and the record stays. */
  lemma TakenNameInRun(env: Env, rqs: seq<Request>, user: string, password: string, ip: string, v: Visit, old_: Entry)
    requires Honest(env, Run(env, FRESH, rqs), Signup, user, password, ip, v)
    requires var w := Run(env, FRESH, rqs);
             && Room(w, Signup, ip, 3) && FlagGone(w, ip)
             && RecordOf(w, user) == Some(old_) && AliveAt(old_, Submission(env, w, v).w.now)
    ensures var w := Run(env, FRESH, rqs);
            var w2, h := BeforeSubmit(env, w, v), Submission(env, w, v);
            && Serve(env, w, v.ask).rt == 1
            && (env.form.guardOnRecord ==> h.rt == 211100 && RecordOf(h.w, user) == Some(old_))
            && (!env.form.guardOnRecord && FlagPlain(env.form, v.submit) ==>
                  && h.rt == 0
                  && RecordKept(h.w, user, SignupTag(env.hash, v.ask.sesv, user, password), v.ask.sesv,
                                w2.now + 2_592_000_000))
            && (!env.form.guardOnRecord && FlagCut(env.form, v.submit) ==>
                  h.rt == 211101 && RecordOf(h.w, user) == Some(old_))
  {
    hide Serve, Run, Honest, Room, FlagGone, RecordShaped, RecordKept, At;
    RunRecords(env, rqs, user);
    TakenName(env, Run(env, FRESH, rqs), user, password, ip, v, old_);
  }

  // ----- Two signups of the code as written -----

  /** A request adds one to a counter at most, whatever fails. */
  lemma RoomGrows(env: Env, w: World, rq: Request, ty: PostType, ip: string, n: nat)
    requires Room(w, ty, ip, n)
    ensures Room(Serve(env, w, rq).w, ty, ip, n + 1)
  {
    hide CheckIp, AfterGate, Room, Untouched, Spares;
    if CallsGate(rq, ty, ip) {
      var gate := CheckIp(env.tape, w, IpCountDb(ty), ty, ip);
      GateRoom(env.tape, w, ty, ip, n);
      BehindGateFrame(env, gate.w, ty, rq, IpCountDb(ty), FailedKey(ty, ip));
      RoomStays(gate.w, AfterGate(env, gate.w, ty, rq).w, ty, ip, n + 1);
    } else {
      CounterKeyIsPrivate(env.form, rq, ty, ip);
      ServeFrame(env, w, rq, IpCountDb(ty), FailedKey(ty, ip));
      RoomStays(w, Serve(env, w, rq).w, ty, ip, n);
      MoreRoom(Serve(env, w, rq).w, ty, ip, n);
    }
  }

  lemma MoreRoom(w: World, ty: PostType, ip: string, n: nat)
    requires Room(w, ty, ip, n)
    ensures Room(w, ty, ip, n + 1)
  {
  }

  lemma StepRoom(w: World, w': World, ty: PostType, ip: string, cmd: Cmd, n: nat)
    requires Room(w, ty, ip, n) && CounterCmd(cmd, ty, ip) && Stepped(w, w', IpCountDb(ty), cmd)
    ensures Room(w', ty, ip, if cmd.Incr? then n + 1 else n)
  {
  }

  lemma IncrementRoom(tape: Tape, w: World, ty: PostType, ip: string, n: nat)
    requires Room(w, ty, ip, n)
    ensures Room(Increment(tape, w, IpCountDb(ty), SIGNUP_FAILED_TTL, FailedKey(ty, ip)).w, ty, ip, n + 1)
  {
    hide Room, Issue;
    var (w1, up) := Connect(tape, w, IpCountDb(ty));
    RoomStays(w, w1, ty, ip, n);
    MoreRoom(w1, ty, ip, n);
    var incr, expire := Incr(FailedKey(ty, ip)), Expire(FailedKey(ty, ip), SIGNUP_FAILED_TTL);
    var w2 := Issue(tape, w1, IpCountDb(ty), incr).0;
    StepRoom(w1, w2, ty, ip, incr, n);
    StepRoom(w2, Issue(tape, w2, IpCountDb(ty), expire).0, ty, ip, expire, n + 1);
  }

  lemma GateRoom(tape: Tape, w: World, ty: PostType, ip: string, n: nat)
    requires Room(w, ty, ip, n)
    ensures Room(CheckIp(tape, w, IpCountDb(ty), ty, ip).w, ty, ip, n + 1)
  {
    hide Room, GetInt, Increment, Untouched;
    var db := IpCountDb(ty);
    var (w1, up) := Connect(tape, w, db);
    SameRoom(w, w1, ty, ip, n);
    MoreRoom(w1, ty, ip, n);
    if up {
      var flag := GetInt(tape, w1, db, Exists(OkKey(ty, ip)));
      GetIntFrame(tape, w1, db, Exists(OkKey(ty, ip)), db, FailedKey(ty, ip));
      RoomStays(w1, flag.w, ty, ip, n);
      MoreRoom(flag.w, ty, ip, n);
      IncrementRoom(tape, flag.w, ty, ip, n);
      var count := Increment(tape, flag.w, db, SIGNUP_FAILED_TTL, FailedKey(ty, ip));
      SameRoom(count.w, Passed(count.w, ty, ip, count.n, count.armed), ty, ip, n + 1);
    }
  }

  lemma SameRoom(w: World, w': World, ty: PostType, ip: string, n: nat)
    requires Room(w, ty, ip, n) && w'.store == w.store
    ensures Room(w', ty, ip, n)
  {
  }

  /** A hash that is always the same. */
  const SAME: Hasher := (_, _) => Repeated('1', PASSWD_LEN)

  lemma SameOk()
    ensures TagsOk(SAME)
  {
    RepeatedOk('1', PASSWD_LEN);
  }

  /** The two visits: two clean names, two addresses, two passwords; any of the pairs may be
      equal. Their session tokens differ. */
  function FirstVisit(user: string, p: string, ip: string): Visit {
    VisitOf(SAME, Signup, user, p, ip, Repeated('1', SALT_LEN), None)
  }

  function SecondVisit(user: string, p: string, ip: string): Visit {
    VisitOf(SAME, Signup, user, p, ip, Repeated('2', SALT_LEN), None)
  }

  function TwoVisits(user1: string, p1: string, ip1: string, user2: string, p2: string, ip2: string): seq<Request> {
    var v1, v2 := FirstVisit(user1, p1, ip1), SecondVisit(user2, p2, ip2);
    [v1.ask, v1.submit, v2.ask, v2.submit]
  }

  /** A calm visit for an open name succeeds, and its record is kept for 30 days. */
  lemma CalmSignupSucceeds(w: World, user: string, p: string, ip: string, tok: string)
    requires CleanUser(user) && IpText(ip) && Setting(w, user, ip) && HexOk(tok, SALT_LEN)
    requires NameOpen(LITERAL, w, user, w.now)
    ensures var env, v := CalmEnv(LITERAL, SAME), VisitOf(SAME, Signup, user, p, ip, tok, None);
            var h := Submission(env, w, v);
            && Serve(env, w, v.ask).rt == 1 && h.rt == 0 && h.w.now == w.now
            && RecordKept(h.w, user, SignupTag(env.hash, tok, user, p), tok, w.now + 2_592_000_000)
  {
    hide Serve, Honest, Setting, CleanUser, RecordKept, NameOpen, SignupTag, HexOk, Run, SubmitBody, PostText;
    var env, v := CalmEnv(LITERAL, SAME), VisitOf(SAME, Signup, user, p, ip, tok, None);
    SameOk();
    EmptyFlagPlain(LITERAL, v.submit);
    CalmSignup(LITERAL, SAME, w, user, p, ip, tok);
    SignupHalf(env, w, user, p, ip, v);
    CalmEverywhere(LITERAL, SAME);
    ServeStill(env, w, v.ask);
    NothingBetween(env, Serve(env, w, v.ask).w);
  }

  /** The first visit, from the empty store: it succeeds, and its record is kept. */
  lemma FirstSucceeds(user: string, p: string, ip: string)
    requires CleanUser(user) && IpText(ip)
    ensures var env, v := CalmEnv(LITERAL, SAME), FirstVisit(user, p, ip);
            var h := Submission(env, FRESH, v);
            && Serve(env, FRESH, v.ask).rt == 1 && h.rt == 0 && h.w.now == 0
            && h.w == Run(env, FRESH, [v.ask, v.submit])
            && RecordKept(h.w, user, SignupTag(env.hash, v.ask.sesv, user, p), v.ask.sesv, 2_592_000_000)
  {
    hide Serve, Setting, CleanUser, Room, RecordKept, RecordGone, SignupTag, HexOk, SubmitBody, PostText;
    var env, v := CalmEnv(LITERAL, SAME), FirstVisit(user, p, ip);
    RepeatedOk('1', SALT_LEN);
    FreshSetting(user, ip);
    CalmSignupSucceeds(FRESH, user, p, ip, Repeated('1', SALT_LEN));
    TwoRequests(env, FRESH, v.ask, v.submit);
    NothingBetween(env, Serve(env, FRESH, v.ask).w);
  }

  lemma TwoRequests(env: Env, w: World, a: Request, b: Request)
    ensures Run(env, w, [a, b]) == Serve(env, Serve(env, w, a).w, b).w
  {
    hide Serve;
    assert [a, b][1..] == [b] && [b][1..] == [];
    NothingBetween(env, Serve(env, Serve(env, w, a).w, b).w);
  }

  /** The second visit finds room, no flag of its address, and a name that is open as written. */
  lemma SecondIsAdmitted(user1: string, p1: string, ip1: string, user2: string, ip2: string)
    requires CleanUser(user1) && CleanUser(user2) && IpText(ip1) && IpText(ip2) && ip2 != ""
    ensures var w := Submission(CalmEnv(LITERAL, SAME), FRESH, FirstVisit(user1, p1, ip1)).w;
            Setting(w, user2, ip2) && NameOpen(LITERAL, w, user2, 0)
  {
    hide Serve, CleanUser, Room, At, RecordShaped, FlagGone, Run, Untouched, SignupTag;
    var env, v := CalmEnv(LITERAL, SAME), FirstVisit(user1, p1, ip1);
    var w1, w := Serve(env, FRESH, v.ask).w, Submission(env, FRESH, v).w;
    NothingBetween(env, w1);
    FreshRoom(ip2);
    RoomGrows(env, FRESH, v.ask, Signup, ip2, 0);
    RoomGrows(env, w1, v.submit, Signup, ip2, 1);
    MoreRoom(w, Signup, ip2, 2);
    FirstSucceeds(user1, p1, ip1);
    RunRecords(env, [v.ask, v.submit], user2);
    NoFlagYet(env, v, ip2);
    NameStillOpen(user1, p1, ip1, user2);
  }

  lemma FreshRoom(ip: string)
    ensures Room(FRESH, Signup, ip, 0)
  {
  }

  lemma NoFlagYet(env: Env, v: Visit, ip: string)
    requires FlagIp(env.form, v.ask) != ip && FlagIp(env.form, v.submit) != ip && v.between == []
    ensures FlagGone(Submission(env, FRESH, v).w, ip)
  {
    hide Serve, FlagIp, NamesFlag, Spares;
    var w1 := Serve(env, FRESH, v.ask).w;
    NothingBetween(env, w1);
    assert !NamesFlag(env.form, v.ask, ip) by { OtherName(env.form, v.ask, ip); }
    assert !NamesFlag(env.form, v.submit, ip) by { OtherName(env.form, v.submit, ip); }
    FlagKeyIsNamed(env.form, v.ask, ip);
    FlagKeyIsNamed(env.form, v.submit, ip);
    ServeFrame(env, FRESH, v.ask, IpCountDb(Signup), OkKey(Signup, ip));
    ServeFrame(env, w1, v.submit, IpCountDb(Signup), OkKey(Signup, ip));
  }

  lemma OtherName(form: Form, rq: Request, ip: string)
    requires FlagIp(form, rq) != ip
    ensures !NamesFlag(form, rq, ip)
  {
  }

  lemma NameStillOpen(user1: string, p1: string, ip1: string, user2: string)
    requires CleanUser(user1) && CleanUser(user2) && IpText(ip1)
    ensures NameOpen(LITERAL, Submission(CalmEnv(LITERAL, SAME), FRESH, FirstVisit(user1, p1, ip1)).w, user2, 0)
  {
    hide Serve, CleanUser, Holds, SignupTag, Run, Spares, ParseSession;
    var env, v := CalmEnv(LITERAL, SAME), FirstVisit(user1, p1, ip1);
    FirstSucceeds(user1, p1, ip1);
    if user1 != user2 {
      var w1 := Serve(env, FRESH, v.ask).w;
      NothingBetween(env, w1);
      FirstParses(user1, p1, ip1);
      NameSpared(env.form, v.ask, user1, user2);
      NameSpared(env.form, v.submit, user1, user2);
      ServeFrame(env, FRESH, v.ask, SALT_LOGIN_DB, UserKey(Login, user2));
      ServeFrame(env, w1, v.submit, SALT_LOGIN_DB, UserKey(Login, user2));
    }
  }

  /** The request is about this name and no other. */
  predicate About(rq: Request, user: string) {
    forall ty :: match ParseSession(ty, rq.json)
                 case Rejected(_) => true
                 case NewSession(u) => u == user
                 case Submit(u, _, _) => u == user
  }

  lemma NameSpared(form: Form, rq: Request, user: string, other: string)
    requires About(rq, user) && other != user
    ensures Spares(form, rq, SALT_LOGIN_DB, UserKey(Login, other))
  {
    hide ParseSession, Classify;
  }

  lemma NamedIsAbout(rq: Request, user: string)
    requires CleanUser(user) && rq.json.Some?
    requires "username" in rq.json.value && rq.json.value["username"] == JsonString(user)
    ensures About(rq, user)
  {
    hide HexOk, UsernameOk;
    LowerIsFixed(user);
  }

  lemma FirstParses(user: string, p: string, ip: string)
    requires CleanUser(user)
    ensures About(FirstVisit(user, p, ip).ask, user) && About(FirstVisit(user, p, ip).submit, user)
  {
    hide SignupTag, HexOk, PostText, About, SubmitBody, CleanUser;
    var hash, tok := CalmEnv(LITERAL, SAME).hash, Repeated('1', SALT_LEN);
    RepeatedOk('1', SALT_LEN);
    SignupBodyIs(hash, user, p, tok, tok);
    NamedIsAbout(FirstVisit(user, p, ip).ask, user);
    NamedIsAbout(FirstVisit(user, p, ip).submit, user);
  }

  /** From the empty store, with the code as written and no time passing: both visits succeed,
      and the second record is the one that is kept. */
  lemma BothSucceed(user1: string, p1: string, ip1: string, user2: string, p2: string, ip2: string)
    requires CleanUser(user1) && CleanUser(user2) && IpText(ip1) && IpText(ip2) && ip2 != ""
    ensures var env, v1, v2 := CalmEnv(LITERAL, SAME), FirstVisit(user1, p1, ip1), SecondVisit(user2, p2, ip2);
            var w := Submission(env, FRESH, v1).w;
            var h := Submission(env, w, v2);
            && Submission(env, FRESH, v1).rt == 0 && w.now == 0
            && Serve(env, w, v2.ask).rt == 1 && h.rt == 0 && h.w.now == 0
            && RecordKept(h.w, user2, SignupTag(env.hash, v2.ask.sesv, user2, p2), v2.ask.sesv, 2_592_000_000)
  {
    hide Serve, Setting, CleanUser, RecordKept, NameOpen, SignupTag, HexOk, Run, SubmitBody, PostText, Submission;
    FirstSucceeds(user1, p1, ip1);
    SecondIsAdmitted(user1, p1, ip1, user2, ip2);
    RepeatedOk('2', SALT_LEN);
    var w := Submission(CalmEnv(LITERAL, SAME), FRESH, FirstVisit(user1, p1, ip1)).w;
    CalmSignupSucceeds(w, user2, p2, ip2, Repeated('2', SALT_LEN));
  }

  lemma FourRequests(env: Env, v1: Visit, v2: Visit)
    requires v1.between == [] && v2.between == []
    ensures var rqs := [v1.ask, v1.submit, v2.ask, v2.submit];
            var w := Submission(env, FRESH, v1).w;
            && Run(env, FRESH, rqs[..1]) == BeforeSubmit(env, FRESH, v1) && Run(env, FRESH, rqs[..2]) == w
            && Run(env, FRESH, rqs[..3]) == BeforeSubmit(env, w, v2) && Run(env, FRESH, rqs) == Submission(env, w, v2).w
  {
    hide Serve, Run;
    var rqs, w := [v1.ask, v1.submit, v2.ask, v2.submit], Submission(env, FRESH, v1).w;
    NothingBetween(env, Serve(env, FRESH, v1.ask).w);
    NothingBetween(env, Serve(env, w, v2.ask).w);
    AfterRequest(env, rqs, 0);
    AfterRequest(env, rqs, 1);
    AfterRequest(env, rqs, 2);
    AfterRequest(env, rqs, 3);
    assert rqs[..0] == [] && rqs[..4] == rqs;
    NothingBetween(env, FRESH);
  }

  /** The hour rule fails of the code as written. For any two clean names and any plain address, the
      run of four requests from the empty store signs both names up from that address, and no
      time at all passes in it. */
  lemma HourRuleFails(user1: string, p1: string, user2: string, p2: string, ip: string)
    requires CleanUser(user1) && CleanUser(user2) && user1 != user2 && IpText(ip) && ip != ""
    ensures var env, rqs := CalmEnv(LITERAL, SAME), TwoVisits(user1, p1, ip, user2, p2, ip);
            && SignedUp(env, rqs, 1) && SignedUp(env, rqs, 3) && rqs[1].ip == rqs[3].ip == ip
            && ParseSession(Signup, rqs[1].json).Submit? && ParseSession(Signup, rqs[1].json).user == user1
            && ParseSession(Signup, rqs[3].json).Submit? && ParseSession(Signup, rqs[3].json).user == user2
            && Run(env, FRESH, rqs).now == 0
  {
    hide Serve, Run, RecordKept, CleanUser, SignupTag, Posts, PostText, HexOk, ParseSession, Classify;
    var env, v1, v2 := CalmEnv(LITERAL, SAME), FirstVisit(user1, p1, ip), SecondVisit(user2, p2, ip);
    BothSucceed(user1, p1, ip, user2, p2, ip);
    FourRequests(env, v1, v2);
    SubmitsAs(user1, p1, ip, '1');
    SubmitsAs(user2, p2, ip, '2');
  }

  lemma SubmitsAs(user: string, p: string, ip: string, c: char)
    requires CleanUser(user) && '1' <= c <= '9'
    ensures var v := VisitOf(SAME, Signup, user, p, ip, Repeated(c, SALT_LEN), None);
            && Classify(v.submit.buffer) == Accepted(Signup)
            && ParseSession(Signup, v.submit.json).Submit? && ParseSession(Signup, v.submit.json).user == user
  {
    hide Classify, PostText, SignupTag, HexOk, ParseSession, SubmitBody, Posts;
    var hash, tok := CalmEnv(LITERAL, SAME).hash, Repeated(c, SALT_LEN);
    var v := VisitOf(SAME, Signup, user, p, ip, tok, None);
    RepeatedOk(c, SALT_LEN);
    HexOkIsToken(tok);
    PostsWell(Signup, ip, v.submit.json, tok);
    PostArrives(v.submit, Signup, ip, v.submitPost);
    SignupBodyIs(hash, user, p, tok, tok);
    SameOk();
    TagIsOk(hash, tok, user, p);
    SubmissionIsUnderstood(Signup, user, tok, SignupTag(hash, tok, user, p));
  }

  lemma KeptHolds(w: World, user: string, tag: string, salt: string, until: int)
    requires RecordKept(w, user, tag, salt, until)
    ensures RecordOf(w, user).Some? && AliveAt(RecordOf(w, user).value, until - 1)
    ensures Holds(RecordOf(w, user), tag, salt)
  {
  }

  /** The duplicate rule fails of the code as written. From the empty store, two visits from
      any two plain addresses sign the same name up; the first record, which had 30 days to live,
      is gone at once, and the second visitor's salt stands in its place. */
  lemma LiveRecordLost(user: string, p1: string, ip1: string, p2: string, ip2: string)
    requires CleanUser(user) && IpText(ip1) && IpText(ip2) && ip2 != ""
    ensures var env, rqs := CalmEnv(LITERAL, SAME), TwoVisits(user, p1, ip1, user, p2, ip2);
            var w, w' := Run(env, FRESH, rqs[..2]), Run(env, FRESH, rqs);
            && SignedUp(env, rqs, 1) && SignedUp(env, rqs, 3)
            && RecordOf(w, user).Some? && AliveAt(RecordOf(w, user).value, w'.now + 2_592_000_000 - 1)
            && Holds(RecordOf(w, user), SignupTag(env.hash, rqs[0].sesv, user, p1), rqs[0].sesv)
            && Holds(RecordOf(w', user), SignupTag(env.hash, rqs[2].sesv, user, p2), rqs[2].sesv)
            && RecordOf(w', user).value.value != RecordOf(w, user).value.value
  {
    hide Serve, Run, CleanUser, SignupTag, Posts, PostText, HexOk, Classify, Holds, RecordOf, RecordKept, AliveAt,
      ParseSession, SubmitBody;
    var env, v1, v2 := CalmEnv(LITERAL, SAME), FirstVisit(user, p1, ip1), SecondVisit(user, p2, ip2);
    var w := Submission(env, FRESH, v1).w;
    var w', tag1, tag2 := Submission(env, w, v2).w, SignupTag(env.hash, v1.ask.sesv, user, p1),
        SignupTag(env.hash, v2.ask.sesv, user, p2);
    FirstSucceeds(user, p1, ip1);
    BothSucceed(user, p1, ip1, user, p2, ip2);
    FourRequests(env, v1, v2);
    SubmitsAs(user, p1, ip1, '1');
    SubmitsAs(user, p2, ip2, '2');
    KeptHolds(w, user, tag1, v1.ask.sesv, 2_592_000_000);
    KeptHolds(w', user, tag2, v2.ask.sesv, 2_592_000_000);
    SaltsDiffer(RecordOf(w, user), RecordOf(w', user), tag1, tag2);
  }

  lemma SaltsDiffer(a: Option<Entry>, b: Option<Entry>, tag1: string, tag2: string)
    requires Holds(a, tag1, Repeated('1', SALT_LEN)) && Holds(b, tag2, Repeated('2', SALT_LEN))
    ensures a.value.value != b.value.value
  {
    var one, two := Repeated('1', SALT_LEN), Repeated('2', SALT_LEN);
    assert one[0] != two[0];
    assert "salt" in NewRecord(tag1, one) && "salt" in NewRecord(tag2, two);
    assert a.value.value.fields["salt"] == one && b.value.value.fields["salt"] == two;
  }
}
