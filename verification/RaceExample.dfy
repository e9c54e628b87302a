/** A run of two workers in which a record that is written, and reported as kept, is replaced
    at once, although the guard looks at the record and the flag is named by the address. */
module RaceExample {
  import opened Common
  import opened RedisStore
  import opened HttpText
  import opened HttpParser
  import opened Validators
  import opened Hashing
  import opened Cookies
  import opened PostPath
  import opened Protocol
  import opened History
  import opened SignupRules
  import opened Interleaving
  import opened Client
  import opened Completeness
  import opened StoryExample
  import opened Races

  const INTENDED := Form(true, true)

  /** No time has passed; the name and the address have neither record nor flag. */
  ghost predicate Untaken(w: World, user: string, ip: string, n: int) {
    && w.now == 0 && Room(w, Signup, ip, n) && FlagGone(w, ip)
    && RecordOf(w, user).None? && At(w.store, SALT_LOGIN_DB, UserKey(Signup, user)).None?
  }

  /** The session whose cookie and salt are tok stands for its 300 s. */
  ghost predicate Waiting(w: World, user: string, tok: string) {
    SessionKept(w, Signup, user, tok, tok, 300_000)
  }

  // ----- What asking and submitting do to the world -----

  function AskOf(user: string, ip: string, tok: string): Request {
    RequestOf(Signup, ip, PlainPost(), Some(AskBody(user)), tok)
  }

  function SubmitOf(hash: Hasher, user: string, p: string, ip: string, tok: string): Request {
    VisitOf(hash, Signup, user, p, ip, tok, None).submit
  }

  lemma AskLeaves(hash: Hasher, w: World, user: string, ip: string, tok: string, n: nat)
    requires CleanUser(user) && IpText(ip) && HexOk(tok, SALT_LEN) && n < MaxAllowed(Signup) && Untaken(w, user, ip, n)
    ensures var w' := Serve(CalmEnv(INTENDED, hash), w, AskOf(user, ip, tok)).w;
            && Untaken(w', user, ip, n + 1) && Waiting(w', user, tok)
            && forall other :: other != tok && Waiting(w, user, other) ==> Waiting(w', user, other)
    ensures Classify(AskOf(user, ip, tok).buffer) == Accepted(Signup)
  {
    hide Serve, Posts, PostText, Room, SessionKept, HexOk, HexToken, CleanUser, IpText, SmoothFor, Still, Classify,
      ParseSession, Trace, AskBody;
    var env, rq := CalmEnv(INTENDED, hash), AskOf(user, ip, tok);
    var w' := Serve(env, w, rq).w;
    CalmEverywhere(INTENDED, hash);
    HexOkIsToken(tok);
    PostsWell(Signup, ip, rq.json, tok);
    PostArrives(rq, Signup, ip, PlainPost());
    SignupAsked(env, w, rq, user, ip, n);
    ServeStill(env, w, rq);
    AskIsUnderstood(Signup, user);
    ServeFrame(env, w, rq, IpCountDb(Signup), OkKey(Signup, ip));
    ServeFrame(env, w, rq, SALT_LOGIN_DB, UserKey(Login, user));
    ServeFrame(env, w, rq, SALT_LOGIN_DB, UserKey(Signup, user));
    forall other | other != tok && Waiting(w, user, other) ensures Waiting(w', user, other) {
      ServeFrame(env, w, rq, IpCountDb(Signup), SessKey(Signup, user, other));
      SessionStays(w, w', Signup, user, other, other, 300_000);
    }
  }

  /** One unfolding of Steps. */
  lemma StepsOnce(env: Env, w: World, rq: Request, pc: Pc, k: nat) returns (w': World, pc': Pc)
    requires PcOk(pc) && Active(pc) && k > 0
    ensures (w', pc') == Step(env, w, Signup, rq, pc, IpCountDb(Signup)) && PcOk(pc')
    ensures Steps(env, w, Signup, rq, pc, k) == Steps(env, w', Signup, rq, pc', k - 1)
  {
    hide Step;
    w', pc' := Step(env, w, Signup, rq, pc, IpCountDb(Signup)).0, Step(env, w, Signup, rq, pc, IpCountDb(Signup)).1;
  }

  /** Five commands lead through the gate. */
  lemma ThroughGate(env: Env, w: World, rq: Request, k: nat)
    requires CheckIp(env.tape, w, IpCountDb(Signup), Signup, rq.ip).rt == 0
    ensures Steps(env, w, Signup, rq, AtGate, k + 5)
         == Steps(env, CheckIp(env.tape, w, IpCountDb(Signup), Signup, rq.ip).w, Signup, rq, BehindGate(Signup, rq), k)
  {
    hide Steps, GetInt, Connect, FlagBlocks, DecText, BehindGate, Passed;
    var w1, pc1 := StepsOnce(env, w, rq, AtGate, k + 5);
    var w2, pc2 := StepsOnce(env, w1, rq, pc1, k + 4);
    var w3, pc3 := StepsOnce(env, w2, rq, pc2, k + 3);
    var w4, pc4 := StepsOnce(env, w3, rq, pc3, k + 2);
    var w5, pc5 := StepsOnce(env, w4, rq, pc4, k + 1);
  }

  /** Two more lead past the record check. */
  lemma PastGuard(env: Env, w: World, rq: Request, p: Parsed)
    requires p.Submit? && CheckSession(env, w, Signup, rq, p.user, p.salt).rt == 0
    requires var session := CheckSession(env, w, Signup, rq, p.user, p.salt);
             var found := GetInt(env.tape, session.w, SALT_LOGIN_DB, Exists(GuardKey(env.form, Signup, p.user)));
             found.rt == 0 && found.n != 1
    ensures var session := CheckSession(env, w, Signup, rq, p.user, p.salt);
            Steps(env, w, Signup, rq, AtLookup(p), 2)
            == (GetInt(env.tape, session.w, SALT_LOGIN_DB, Exists(GuardKey(env.form, Signup, p.user))).w, AtSetFlag(p))
  {
    hide GetInt, GetString, DecText, CookieOf, GuardKey;
    var w1, pc1 := StepsOnce(env, w, rq, AtLookup(p), 2);
    var w2, pc2 := StepsOnce(env, w1, rq, pc1, 1);
  }

  /** What a submission of the visit carries. */
  lemma SubmitArrives(hash: Hasher, user: string, p: string, ip: string, tok: string)
    requires TagsOk(hash) && CleanUser(user) && HexOk(tok, SALT_LEN)
    ensures var rq := SubmitOf(hash, user, p, ip, tok);
            && Arrived(rq, Signup, ip) && CookieOf(Signup, rq) == Found(tok) && HexToken(tok, SALT_LEN)
            && ParseSession(Signup, rq.json) == Submit(user, SignupTag(hash, tok, user, p), tok)
  {
    hide Posts, PostText, HexOk, HexToken, TagsOk, CleanUser, HeaderLookup, Arrived, CookieOf, ParseSession, SubmitBody,
      SignupTag, CookiePost;
    var env, rq := CalmEnv(INTENDED, hash), SubmitOf(hash, user, p, ip, tok);
    HexOkIsToken(tok);
    PostsWell(Signup, ip, rq.json, tok);
    CookieHeaderOk(Signup, tok);
    SignupAnswered(env, rq, ip, user, p, CookiePost(Signup, tok), tok, tok);
  }

  /** The first seven commands of a submission: the record check is passed, and but for the
      address's counter the store is what it was. */
  lemma GuardPassed(hash: Hasher, w: World, user: string, p: string, ip: string, tok: string, n: nat)
    requires TagsOk(hash) && CleanUser(user) && IpText(ip) && HexOk(tok, SALT_LEN) && n < MaxAllowed(Signup)
    requires Untaken(w, user, ip, n) && Waiting(w, user, tok)
    ensures var rq, ps := SubmitOf(hash, user, p, ip, tok), Submit(user, SignupTag(hash, tok, user, p), tok);
            var (w', pc) := Steps(CalmEnv(INTENDED, hash), w, Signup, rq, AtGate, 7);
            && pc == AtSetFlag(ps) && Untaken(w', user, ip, n + 1)
            && forall other :: Waiting(w, user, other) ==> Waiting(w', user, other)
  {
    hide Steps, CheckIp, CheckSession, Room, SessionKept, TagsOk, CleanUser, HexOk, HexToken, IpText, FlagGone, At,
      Trace, SignupTag, SubmitOf, ParseSession, Classify, HeadEnd, CookieOf, SmoothFor, Still, Live;
    var env, rq := CalmEnv(INTENDED, hash), SubmitOf(hash, user, p, ip, tok);
    var db, ps := IpCountDb(Signup), Submit(user, SignupTag(hash, tok, user, p), tok);
    CalmEverywhere(INTENDED, hash);
    SubmitArrives(hash, user, p, ip, tok);
    GateOpens(env.tape, w, Signup, ip, n);
    var gate := CheckIp(env.tape, w, db, Signup, ip);
    GateLeaves(env, w, user, ip, n);
    var session := CheckSession(env, gate.w, Signup, rq, user, tok);
    CheckStill(env, gate.w, rq, user, tok);
    CalmTick(hash, gate.w.pos);
    SessionAccepted(env, gate.w, Signup, rq, user, tok, tok, 300_000);
    var found := GetInt(env.tape, session.w, SALT_LOGIN_DB, Exists(UserKey(Login, user)));
    CalmTick(hash, session.w.pos);
    NoRecordFound(env.tape, session.w, user);
    ThroughGate(env, w, rq, 2);
    PastGuard(env, gate.w, rq, ps);
    SameStore(gate.w, found.w, user, ip, n + 1);
  }

  lemma CalmTick(hash: Hasher, i: nat)
    ensures Smooth(CalmEnv(INTENDED, hash).tape(i)) && CalmEnv(INTENDED, hash).tape(i).wait == 0
  {
  }

  lemma CheckStill(env: Env, w: World, rq: Request, user: string, tok: string)
    requires Still(env.tape)
    ensures CheckSession(env, w, Signup, rq, user, tok).w.now == w.now
  {
    hide Settle, CookieOf, DecText;
  }

  lemma NoRecordFound(tape: Tape, w: World, user: string)
    requires Smooth(tape(w.pos)) && tape(w.pos).wait == 0 && RecordOf(w, user).None?
    ensures var found := GetInt(tape, w, SALT_LOGIN_DB, Exists(UserKey(Login, user)));
            found.rt == 0 && found.n == 0 && found.w.store == w.store && found.w.now == w.now
  {
  }

  lemma SameStore(w: World, w': World, user: string, ip: string, n: int)
    requires w'.store == w.store && w'.now == w.now && Untaken(w, user, ip, n)
    ensures Untaken(w', user, ip, n) && forall tok :: Waiting(w, user, tok) ==> Waiting(w', user, tok)
  {
  }

  lemma GateLeaves(env: Env, w: World, user: string, ip: string, n: nat)
    requires Still(env.tape) && Untaken(w, user, ip, n)
    requires Room(CheckIp(env.tape, w, IpCountDb(Signup), Signup, ip).w, Signup, ip, n + 1)
    ensures var w' := CheckIp(env.tape, w, IpCountDb(Signup), Signup, ip).w;
            Untaken(w', user, ip, n + 1) && forall tok :: Waiting(w, user, tok) ==> Waiting(w', user, tok)
  {
    hide CheckIp, Room, SessionKept, At, Trace, Still;
    var db, w' := IpCountDb(Signup), CheckIp(env.tape, w, IpCountDb(Signup), Signup, ip).w;
    GateStill(env, w, ip);
    GateFrame(env.tape, w, Signup, ip, db, OkKey(Signup, ip));
    GateFrame(env.tape, w, Signup, ip, SALT_LOGIN_DB, UserKey(Login, user));
    GateFrame(env.tape, w, Signup, ip, SALT_LOGIN_DB, UserKey(Signup, user));
    forall tok | Waiting(w, user, tok) ensures Waiting(w', user, tok) {
      GateFrame(env.tape, w, Signup, ip, db, SessKey(Signup, user, tok));
      SessionStays(w, w', Signup, user, tok, tok, 300_000);
    }
  }

  lemma GateStill(env: Env, w: World, ip: string)
    requires Still(env.tape)
    ensures CheckIp(env.tape, w, IpCountDb(Signup), Signup, ip).w.now == w.now
  {
    hide Effect, TrueReply, Settle, Truthful, Stepped, DecText;
  }

  /** A submission that nobody interrupts succeeds. */
  lemma SubmitSucceeds(hash: Hasher, w: World, user: string, p: string, ip: string, tok: string, n: nat)
    requires TagsOk(hash) && CleanUser(user) && IpText(ip) && HexOk(tok, SALT_LEN) && n < MaxAllowed(Signup)
    requires Untaken(w, user, ip, n) && Waiting(w, user, tok)
    ensures var env, rq := CalmEnv(INTENDED, hash), SubmitOf(hash, user, p, ip, tok);
            var h := Serve(env, w, rq);
            && Classify(rq.buffer) == Accepted(Signup) && h.rt == 0 && h.sent == [Welcome] && h.w.now == 0
            && RecordKept(h.w, user, SignupTag(hash, tok, user, p), tok, 2_592_000_000)
  {
    hide Serve, Room, SessionKept, TagsOk, CleanUser, HexOk, HexToken, IpText, FlagGone, At, SignupTag, ParseSession,
      Classify, HeadEnd, CookieOf, SmoothFor, Still, RecordKept, FlagPlain, SubmitOf;
    var env, rq := CalmEnv(INTENDED, hash), SubmitOf(hash, user, p, ip, tok);
    CalmEverywhere(INTENDED, hash);
    SubmitArrives(hash, user, p, ip, tok);
    ServeStill(env, w, rq);
    AddressPlain(rq);
    SignupSubmitted(env, w, rq, ip, n, user, SignupTag(hash, tok, user, p), tok, tok, 300_000);
  }

  lemma AddressPlain(rq: Request)
    requires IpText(rq.ip)
    ensures FlagPlain(INTENDED, rq)
  {
  }

  /** The rest of the interrupted one succeeds as well, and the record is its own. */
  lemma TailSucceeds(hash: Hasher, w: World, rq: Request, ps: Parsed, tag: string, salt: string)
    requires ps.Submit? && IpText(rq.ip) && w.now == 0 && RecordKept(w, ps.user, tag, salt, 2_592_000_000)
    ensures var (w', pc) := Steps(CalmEnv(INTENDED, hash), w, Signup, rq, AtSetFlag(ps), 8);
            pc == Closed(0, [Welcome]) && w'.now == 0 && Holds(RecordOf(w', ps.user), ps.passwd, ps.salt)
  {
    hide Steps, Solo, SignupTail, Holds, SmoothFor, Still, FlagPlain, At;
    var env := CalmEnv(INTENDED, hash);
    CalmEverywhere(INTENDED, hash);
    AddressPlain(rq);
    SoloIsSteps(env, w, Signup, rq, AtSetFlag(ps), 8);
    SoloSignupTail(env, w, rq, ps);
    SoloStill(env, w, Signup, rq, AtSetFlag(ps));
    KeptIsShaped(w, ps.user, tag, salt);
    CalmTick(hash, w.pos);
    CalmTick(hash, w.pos + 1);
    CalmTick(hash, w.pos + 2);
    SmoothSignupTail(env, w, rq, ps.user, ps.passwd, ps.salt);
  }

  lemma KeptIsShaped(w: World, user: string, tag: string, salt: string)
    requires RecordKept(w, user, tag, salt, 2_592_000_000)
    ensures RecordShaped(RecordOf(w, user)) && NotInBetween(RecordOf(w, user), 0, 0)
    ensures AliveAt(RecordOf(w, user).value, 0)
  {
  }

  // ----- The run -----

  const ONE := Repeated('1', SALT_LEN)
  const TWO := Repeated('2', SALT_LEN)

  lemma TokensDiffer()
    ensures HexOk(ONE, SALT_LEN) && HexOk(TWO, SALT_LEN) && ONE != TWO
  {
    RepeatedOk('1', SALT_LEN);
    RepeatedOk('2', SALT_LEN);
    assert ONE[0] != TWO[0];
  }

  /** Worker 0 asks, worker 1 asks for the same name, worker 0 submits and is interrupted
      behind its record check, worker 1 submits. */
  function UpToRace(hash: Hasher, user: string, p: string, q: string, ip: string): seq<Move> {
    ServeMoves(0, AskOf(user, ip, ONE)) + ServeMoves(1, AskOf(user, ip, TWO))
    + ([Begin(0, SubmitOf(hash, user, p, ip, ONE))] + Goes(0, Signup, 7))
    + ServeMoves(1, SubmitOf(hash, user, q, ip, TWO))
  }

  lemma LinkAside(w: World, link: Link, user: string, ip: string, n: int)
    ensures Untaken(w.(link := link), user, ip, n) <==> Untaken(w, user, ip, n)
    ensures forall tok :: Waiting(w.(link := link), user, tok) <==> Waiting(w, user, tok)
  {
  }

  lemma WorkerAsks(hash: Hasher, s: Sys, i: nat, user: string, ip: string, tok: string, n: nat)
    requires CleanUser(user) && IpText(ip) && HexOk(tok, SALT_LEN) && n < MaxAllowed(Signup)
    requires SysOk(s) && i < |s.workers| && !Active(s.workers[i].pc) && Untaken(s.w, user, ip, n)
    ensures var s' := RunAll(CalmEnv(INTENDED, hash), s, ServeMoves(i, AskOf(user, ip, tok)));
            && Untaken(s'.w, user, ip, n + 1) && Waiting(s'.w, user, tok) && !Active(s'.workers[i].pc)
            && s'.workers == s.workers[i := s'.workers[i]]
            && forall other :: other != tok && Waiting(s.w, user, other) ==> Waiting(s'.w, user, other)
  {
    hide Serve, ServeMoves, RunAll, Untaken, Waiting, CleanUser, HexOk, IpText, AskOf, Classify;
    var env := CalmEnv(INTENDED, hash);
    var s' := RunAll(env, s, ServeMoves(i, AskOf(user, ip, tok)));
    LinkAside(s.w, s.workers[i].link, user, ip, n);
    ServeIsRunAll(env, s, i, AskOf(user, ip, tok));
    AskLeaves(hash, SeenBy(s, i), user, ip, tok, n);
    LinkAside(s'.w, s'.workers[i].link, user, ip, n + 1);
  }

  lemma WorkerPassesGuard(hash: Hasher, s: Sys, i: nat, user: string, p: string, ip: string, tok: string, n: nat)
    requires TagsOk(hash) && CleanUser(user) && IpText(ip) && HexOk(tok, SALT_LEN) && n < MaxAllowed(Signup)
    requires SysOk(s) && i < |s.workers| && !Active(s.workers[i].pc) && Untaken(s.w, user, ip, n)
    requires Waiting(s.w, user, tok)
    ensures var rq := SubmitOf(hash, user, p, ip, tok);
            var s' := RunAll(CalmEnv(INTENDED, hash), s, [Begin(i, rq)] + Goes(i, Signup, 7));
            && s'.workers[i].pc == AtSetFlag(Submit(user, SignupTag(hash, tok, user, p), tok))
            && s'.workers[i].ty == Signup && s'.workers[i].rq == rq && s'.workers == s.workers[i := s'.workers[i]]
            && Untaken(s'.w, user, ip, n + 1)
            && forall other :: Waiting(s.w, user, other) ==> Waiting(s'.w, user, other)
  {
    hide Steps, Goes, Step, Untaken, Waiting, CleanUser, HexOk, IpText, TagsOk, SubmitOf, Classify, SignupTag;
    var env, rq := CalmEnv(INTENDED, hash), SubmitOf(hash, user, p, ip, tok);
    SubmitArrives(hash, user, p, ip, tok);
    var s1 := Do(env, s, Begin(i, rq));
    assert ([Begin(i, rq)] + Goes(i, Signup, 7))[1..] == Goes(i, Signup, 7);
    LinkAside(s.w, s.workers[i].link, user, ip, n);
    GoesAreSteps(env, s1, i, 7);
    GuardPassed(hash, SeenBy(s, i), user, p, ip, tok, n);
    var s' := RunAll(env, s1, Goes(i, Signup, 7));
    LinkAside(s'.w, s'.workers[i].link, user, ip, n + 1);
  }

  lemma WorkerSucceeds(hash: Hasher, s: Sys, i: nat, user: string, p: string, ip: string, tok: string, n: nat)
    requires TagsOk(hash) && CleanUser(user) && IpText(ip) && HexOk(tok, SALT_LEN) && n < MaxAllowed(Signup)
    requires SysOk(s) && i < |s.workers| && !Active(s.workers[i].pc) && Untaken(s.w, user, ip, n)
    requires Waiting(s.w, user, tok)
    ensures var rq := SubmitOf(hash, user, p, ip, tok);
            var s' := RunAll(CalmEnv(INTENDED, hash), s, ServeMoves(i, rq));
            && s'.workers[i].pc == Closed(0, [Welcome]) && s'.workers[i].rq == rq
            && s'.workers == s.workers[i := s'.workers[i]] && s'.w.now == 0
            && RecordKept(s'.w, user, SignupTag(hash, tok, user, p), tok, 2_592_000_000)
  {
    hide Serve, ServeMoves, RunAll, Untaken, Waiting, CleanUser, HexOk, IpText, TagsOk, SubmitOf, Classify, Holds,
      SignupTag;
    var env, rq := CalmEnv(INTENDED, hash), SubmitOf(hash, user, p, ip, tok);
    LinkAside(s.w, s.workers[i].link, user, ip, n);
    ServeIsRunAll(env, s, i, rq);
    SubmitSucceeds(hash, SeenBy(s, i), user, p, ip, tok, n);
  }

  lemma StartUntaken(user: string, ip: string)
    ensures Untaken(Start(2).w, user, ip, 0)
  {
  }

  lemma FourParts(env: Env, s: Sys, a: seq<Move>, b: seq<Move>, c: seq<Move>, d: seq<Move>)
    requires SysOk(s)
    ensures RunAll(env, s, a + b + c + d) == RunAll(env, RunAll(env, RunAll(env, RunAll(env, s, a), b), c), d)
  {
    hide RunAll;
    RunAllSplits(env, s, a + b + c, d);
    RunAllSplits(env, s, a + b, c);
    RunAllSplits(env, s, a, b);
  }

  /** Where the two workers stand when the second has finished. */
  lemma BeforeTheLoss(hash: Hasher, user: string, p: string, q: string, ip: string)
    requires TagsOk(hash) && CleanUser(user) && IpText(ip)
    ensures var s := RunAll(CalmEnv(INTENDED, hash), Start(2), UpToRace(hash, user, p, q, ip));
            && s.workers[0].pc == AtSetFlag(Submit(user, SignupTag(hash, ONE, user, p), ONE))
            && s.workers[0].ty == Signup && s.workers[0].rq == SubmitOf(hash, user, p, ip, ONE)
            && s.workers[1].pc == Closed(0, [Welcome]) && s.workers[1].rq == SubmitOf(hash, user, q, ip, TWO)
            && s.w.now == 0 && RecordKept(s.w, user, SignupTag(hash, TWO, user, q), TWO, 2_592_000_000)
  {
    hide RunAll, ServeMoves, Goes, Untaken, Waiting, CleanUser, HexOk, IpText, TagsOk, SubmitOf, AskOf, RecordKept,
      SignupTag;
    var env, s0 := CalmEnv(INTENDED, hash), Start(2);
    var rq1, rq2 := SubmitOf(hash, user, p, ip, ONE), SubmitOf(hash, user, q, ip, TWO);
    TokensDiffer();
    StartUntaken(user, ip);
    WorkerAsks(hash, s0, 0, user, ip, ONE, 0);
    var s1 := RunAll(env, s0, ServeMoves(0, AskOf(user, ip, ONE)));
    WorkerAsks(hash, s1, 1, user, ip, TWO, 1);
    var s2 := RunAll(env, s1, ServeMoves(1, AskOf(user, ip, TWO)));
    WorkerPassesGuard(hash, s2, 0, user, p, ip, ONE, 2);
    var s3 := RunAll(env, s2, [Begin(0, rq1)] + Goes(0, Signup, 7));
    WorkerSucceeds(hash, s3, 1, user, q, ip, TWO, 3);
    FourParts(env, s0, ServeMoves(0, AskOf(user, ip, ONE)), ServeMoves(1, AskOf(user, ip, TWO)),
              [Begin(0, rq1)] + Goes(0, Signup, 7), ServeMoves(1, rq2));
  }

  /** The race happens, with the guard on the record's key and the flag named by the address.
      For any hash, clean name, passwords and plain address there is a run of two workers from
      the empty store, in which nothing fails and no time passes, with these two stages. First
      worker 1 has signed the name up, has returned 0, and its record is kept for 30 days. Then
      worker 0 returns 0 for the same name from the same address, and the record holds its hash
      and its salt. So two signups of one address, both named by it, also pass within the hour. */
  lemma RaceHappens(hash: Hasher, user: string, p: string, q: string, ip: string)
    requires TagsOk(hash) && CleanUser(user) && IpText(ip)
    ensures var env := CalmEnv(INTENDED, hash);
            var s := RunAll(env, Start(2), UpToRace(hash, user, p, q, ip));
            var s' := RunAll(env, s, Goes(0, Signup, 8));
            && s.workers[1].pc == Closed(0, [Welcome]) && s.workers[1].rq == SubmitOf(hash, user, q, ip, TWO)
            && RecordKept(s.w, user, SignupTag(hash, TWO, user, q), TWO, 2_592_000_000)
            && s'.workers[0].pc == Closed(0, [Welcome]) && s'.workers[0].rq == SubmitOf(hash, user, p, ip, ONE)
            && Holds(RecordOf(s'.w, user), SignupTag(hash, ONE, user, p), ONE)
            && s'.w.now == 0 && Replaces(s.w, s'.w, user)
  {
    hide RunAll, UpToRace, Goes, Steps, CleanUser, IpText, TagsOk, SubmitOf, SignupTag;
    var env := CalmEnv(INTENDED, hash);
    var s := RunAll(env, Start(2), UpToRace(hash, user, p, q, ip));
    BeforeTheLoss(hash, user, p, q, ip);
    TokensDiffer();
    GoesAreSteps(env, s, 0, 8);
    SubmitAddress(hash, user, p, ip, ONE);
    var tag := SignupTag(hash, TWO, user, q);
    assert RecordKept(SeenBy(s, 0), user, tag, TWO, 2_592_000_000);
    TailSucceeds(hash, SeenBy(s, 0), s.workers[0].rq, s.workers[0].pc.p, tag, TWO);
    DifferentSalts(RecordOf(s.w, user), RecordOf(RunAll(env, s, Goes(0, Signup, 8)).w, user), tag,
                   SignupTag(hash, ONE, user, p));
  }

  lemma SubmitAddress(hash: Hasher, user: string, p: string, ip: string, tok: string)
    ensures SubmitOf(hash, user, p, ip, tok).ip == ip
  {
  }

  lemma DifferentSalts(a: Option<Entry>, b: Option<Entry>, tag: string, tag': string)
    requires Holds(a, tag, TWO) && Holds(b, tag', ONE)
    ensures a.value.value != b.value.value
  {
    TokensDiffer();
    assert "salt" in NewRecord(tag, TWO) && "salt" in NewRecord(tag', ONE);
    assert a.value.value.fields["salt"] == TWO && b.value.value.fields["salt"] == ONE;
  }
}
