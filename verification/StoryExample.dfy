/** The assumptions of Completeness.EndToEnd can all be met: a story in which nothing fails
    and no time passes. */
module StoryExample {
  import opened Common
  import opened RedisStore
  import opened HttpText
  import opened HttpParser
  import opened Validators
  import opened Hashing
  import opened Cookies
  import opened PostPath
  import opened Protocol
  import opened History
  import opened GateHistory
  import opened Interleaving
  import opened Client
  import opened Completeness

  // ----- Without waiting the clock stands still -----

  ghost predicate Still(tape: Tape) {
    forall i :: tape(i).wait == 0
  }

  lemma StepStill(env: Env, w: World, ty: PostType, rq: Request, pc: Pc, db: int)
    requires PcOk(pc) && Still(env.tape)
    ensures Step(env, w, ty, rq, pc, db).0.now == w.now
  {
    hide LoginCheck, DecText, ParseSession, FlagIp, GuardKey, NewRecord, FlagBlocks, MaxAllowed, Effect, TrueReply,
      Settle, Truthful, Stepped, BehindGate, CookiePc, AfterSalt, AfterGuard;
  }

  lemma {:induction false} SoloStill(env: Env, w: World, ty: PostType, rq: Request, pc: Pc)
    requires PcOk(pc) && Still(env.tape)
    ensures Solo(env, w, ty, rq, pc).0.now == w.now
    decreases Rank(pc)
  {
    hide Step, Rank;
    if Active(pc) {
      StepDescends(env, w, ty, rq, pc, IpCountDb(ty));
      StepStill(env, w, ty, rq, pc, IpCountDb(ty));
      SoloStill(env, Step(env, w, ty, rq, pc, IpCountDb(ty)).0, ty, rq, Step(env, w, ty, rq, pc, IpCountDb(ty)).1);
    }
  }

  lemma ServeStill(env: Env, w: World, rq: Request)
    requires Still(env.tape)
    ensures Serve(env, w, rq).w.now == w.now
  {
    hide Handle, Solo, Classify;
    if Classify(rq.buffer).Accepted? {
      var ty := Classify(rq.buffer).ty;
      SoloStill(env, w, ty, rq, AtGate);
      SoloIsHandle(env, w, ty, rq);
    }
  }

  // ----- The visits -----

  /** A token of n equal characters. */
  function Repeated(c: char, n: nat): (s: string)
    ensures |s| == n && forall i :: 0 <= i < n ==> s[i] == c
  {
    if n == 0 then "" else [c] + Repeated(c, n - 1)
  }

  lemma RepeatedOk(c: char, n: nat)
    requires n > 0 && '1' <= c <= '9'
    ensures HexOk(Repeated(c, n), n)
  {
    assert Repeated(c, n)[0] == c;
  }

  const CALM: Tape := _ => Tick(0, true, true, true, Answered)

  function CalmEnv(form: Form, hash: Hasher): Env {
    Env(form, hash, CALM)
  }

  lemma CalmEverywhere(form: Form, hash: Hasher)
    ensures Still(CalmEnv(form, hash).tape)
    ensures forall from, n :: SmoothFor(CalmEnv(form, hash).tape, from, n)
  {
  }

  function PlainPost(): Post {
    Post("/", [], "")
  }

  function CookiePost(ty: PostType, sess: string): Post {
    Post("/", [CookieHeader([Pair(CookieName(ty), sess)])], "")
  }

  /** The text that line 102 prints is empty here: a pointer whose first byte is NUL. */
  function RequestOf(ty: PostType, ip: string, post: Post, json: Option<Json>, tok: string): Request {
    Request(PostText(post.dir, ty, post.headers, post.body), ip, "", json, tok, tok, true)
  }

  /** Asking and submitting with nothing in between; tok is the session's cookie and salt. */
  function VisitOf(hash: Hasher, ty: PostType, user: string, password: string, ip: string, tok: string,
                   salt: Option<string>): Visit
  {
    var json := SubmitBody(hash, ty, user, password, SessionJson(Session(ty, tok, tok, salt)));
    Visit(RequestOf(ty, ip, PlainPost(), Some(AskBody(user)), tok), PlainPost(), [],
          RequestOf(ty, ip, CookiePost(ty, tok), json, tok), CookiePost(ty, tok))
  }

  lemma CookieHeaderOk(ty: PostType, sess: string)
    requires HexToken(sess, SALT_LEN)
    ensures forall h :: h in CookiePost(ty, sess).headers ==> HeaderOk(h)
    ensures HeaderLookup(CookiePost(ty, sess).headers, CookieName(ty)) == Some(sess)
  {
    hide PlainName;
    CookieNamePlain(ty);
    var pair := Pair(CookieName(ty), sess);
    assert PairOk(pair);
    assert PairLookup([pair], CookieName(ty)) == Some(pair.value);
  }

  lemma RootOk()
    ensures DirOk("/")
  {
  }

  lemma PostsWell(ty: PostType, ip: string, json: Option<Json>, tok: string)
    requires HexToken(tok, SALT_LEN)
    ensures Posts(RequestOf(ty, ip, PlainPost(), json, tok), ty, ip, PlainPost())
    ensures Posts(RequestOf(ty, ip, CookiePost(ty, tok), json, tok), ty, ip, CookiePost(ty, tok))
  {
    hide PostText, DirOk, HeaderOk, HeaderLookup, HexToken;
    CookieHeaderOk(ty, tok);
    RootOk();
    PlainPostShort(ty);
    CookiePostShort(ty, tok);
  }

  lemma PlainPostShort(ty: PostType)
    ensures |PostText("/", ty, [], "")| <= REQUEST_MAX
  {
    var line := "POST " + "/" + TypeStr(ty) + " HTTP/1.1";
    assert [OtherHeader(line)] + [] == [OtherHeader(line)] && [OtherHeader(line)][1..] == [];
    assert HeaderTexts([OtherHeader(line)]) == [line] && [line][1..] == [];
    assert JoinLines([line]) == line + "\r\n";
  }

  lemma CookiePostShort(ty: PostType, tok: string)
    requires HexToken(tok, SALT_LEN)
    ensures |PostText("/", ty, CookiePost(ty, tok).headers, "")| <= REQUEST_MAX
  {
    var line, cookie := "POST " + "/" + TypeStr(ty) + " HTTP/1.1", CookiePost(ty, tok).headers[0];
    var hs := [OtherHeader(line)] + CookiePost(ty, tok).headers;
    assert hs == [OtherHeader(line), cookie] && hs[1..] == [cookie] && [cookie][1..] == [];
    var text := HeaderText(cookie);
    assert |text| == 8 + |CookieName(ty)| + 1 + SALT_LEN;
    assert HeaderTexts(hs) == [line, text] && [line, text][1..] == [text] && [text][1..] == [];
    assert JoinLines([text]) == text + "\r\n";
    assert JoinLines([line, text]) == line + "\r\n" + JoinLines([text]);
  }

  lemma NothingBetween(env: Env, w: World)
    ensures Run(env, w, []) == w
  {
  }

  lemma HexOkIsToken(tok: string)
    requires HexOk(tok, SALT_LEN)
    ensures HexToken(tok, SALT_LEN)
  {
  }

  /** A calm signup visit from any state that admits one is an honest visit. */
  lemma CalmSignup(form: Form, hash: Hasher, w: World, user: string, p: string, ip: string, tok: string)
    requires TagsOk(hash) && CleanUser(user) && IpText(ip) && Setting(w, user, ip) && HexOk(tok, SALT_LEN)
    ensures var env, v := CalmEnv(form, hash), VisitOf(hash, Signup, user, p, ip, tok, None);
            Honest(env, w, Signup, user, p, ip, v) && Submission(env, w, v).w.now == w.now
  {
    hide Serve, Run, Posts, PostText, SubmitBody, HeaderLookup, FlagGone, Room, SmoothFor, HexOk, HexToken, TagsOk,
      CleanUser, Still;
    var env, v := CalmEnv(form, hash), VisitOf(hash, Signup, user, p, ip, tok, None);
    CalmEverywhere(form, hash);
    HexOkIsToken(tok);
    PostsWell(Signup, ip, v.ask.json, tok);
    PostsWell(Signup, ip, v.submit.json, tok);
    PostArrives(v.ask, Signup, ip, v.askPost);
    CookieHeaderOk(Signup, tok);
    SignupAsked(env, w, v.ask, user, ip, 3);
    NothingBetween(env, Serve(env, w, v.ask).w);
    ServeStill(env, w, v.ask);
    ServeStill(env, Serve(env, w, v.ask).w, v.submit);
  }

  /** So is a calm login visit to a kept record. */
  lemma CalmLogin(form: Form, hash: Hasher, w: World, user: string, q: string, ip: string, tok: string, tag: string,
                  salt: string, until: int)
    requires TagsOk(hash) && CleanUser(user) && IpText(ip) && Room(w, Login, ip, 8) && HexOk(tok, SALT_LEN)
    requires RecordKept(w, user, tag, salt, until) && |salt| == SALT_LEN && w.now < until
    ensures var env, v := CalmEnv(form, hash), VisitOf(hash, Login, user, q, ip, tok, Some(salt));
            Honest(env, w, Login, user, q, ip, v) && Submission(env, w, v).w.now == w.now
  {
    hide Serve, Run, Posts, PostText, SubmitBody, HeaderLookup, RecordKept, Room, SmoothFor, HexOk, HexToken, TagsOk,
      CleanUser, Still;
    var env, v := CalmEnv(form, hash), VisitOf(hash, Login, user, q, ip, tok, Some(salt));
    CalmEverywhere(form, hash);
    HexOkIsToken(tok);
    PostsWell(Login, ip, v.ask.json, tok);
    PostsWell(Login, ip, v.submit.json, tok);
    PostArrives(v.ask, Login, ip, v.askPost);
    CookieHeaderOk(Login, tok);
    ServeStill(env, w, v.ask);
    LoginAsked(env, w, v.ask, user, ip, 8, tag, salt, until);
    NothingBetween(env, Serve(env, w, v.ask).w);
    ServeStill(env, Serve(env, w, v.ask).w, v.submit);
  }

  // ----- The story -----

  lemma FreshSetting(user: string, ip: string)
    requires CleanUser(user)
    ensures Setting(FRESH, user, ip) && RecordGone(FRESH, user)
  {
  }

  function TaleOf(hash: Hasher, user: string, p: string, ip: string, q: string, ip2: string): Tale {
    var tok := Repeated('1', SALT_LEN);
    Tale(VisitOf(hash, Signup, user, p, ip, tok, None), [], VisitOf(hash, Login, user, q, ip2, tok, Some(tok)))
  }

  /** No signup request touches a login counter. */
  lemma SignupSparesLogin(env: Env, w: World, rq: Request, ip: string)
    requires Classify(rq.buffer) == Accepted(Signup)
    ensures At(Serve(env, w, rq).w.store, IpCountDb(Login), FailedKey(Login, ip))
         == At(w.store, IpCountDb(Login), FailedKey(Login, ip))
  {
    hide Serve, Spares, Classify;
    CounterKeyIsPrivate(env.form, rq, Login, ip);
    ServeFrame(env, w, rq, IpCountDb(Login), FailedKey(Login, ip));
  }

  lemma LoginRoomLeft(form: Form, hash: Hasher, user: string, p: string, ip: string, ip2: string)
    requires CleanUser(user)
    ensures var v := VisitOf(hash, Signup, user, p, ip, Repeated('1', SALT_LEN), None);
            Room(Submission(CalmEnv(form, hash), FRESH, v).w, Login, ip2, 8)
  {
    hide Serve, Posts, PostText, SubmitBody, HexOk, HexToken, CleanUser, Classify;
    var env, tok := CalmEnv(form, hash), Repeated('1', SALT_LEN);
    var v := VisitOf(hash, Signup, user, p, ip, tok, None);
    RepeatedOk('1', SALT_LEN);
    HexOkIsToken(tok);
    PostsWell(Signup, ip, v.ask.json, tok);
    PostsWell(Signup, ip, v.submit.json, tok);
    PostArrives(v.ask, Signup, ip, v.askPost);
    PostArrives(v.submit, Signup, ip, v.submitPost);
    var w1 := Serve(env, FRESH, v.ask).w;
    NothingBetween(env, w1);
    SignupSparesLogin(env, FRESH, v.ask, ip2);
    SignupSparesLogin(env, w1, v.submit, ip2);
  }

  lemma EmptyFlagPlain(form: Form, rq: Request)
    requires IpText(rq.ip) && rq.flagText == ""
    ensures FlagPlain(form, rq)
  {
  }

  /** For either form, any hash, any clean name, any passwords and any plain addresses the
      story of EndToEnd can happen, from the empty store. */
  lemma StoryHappens(form: Form, hash: Hasher, user: string, p: string, ip: string, q: string, ip2: string)
    requires TagsOk(hash) && CleanUser(user) && IpText(ip) && IpText(ip2)
    ensures Story(CalmEnv(form, hash), FRESH, user, p, ip, q, ip2, TaleOf(hash, user, p, ip, q, ip2))
  {
    hide Serve, Run, Honest, Setting, CleanUser, Room, RecordKept, RecordGone, SignupTag, HexOk,
      FlagPlain, IpText, TagsOk;
    var env, t, tok := CalmEnv(form, hash), TaleOf(hash, user, p, ip, q, ip2), Repeated('1', SALT_LEN);
    RepeatedOk('1', SALT_LEN);
    FreshSetting(user, ip);
    EmptyFlagPlain(form, t.signup.submit);
    CalmSignup(form, hash, FRESH, user, p, ip, tok);
    SignupHalf(env, FRESH, user, p, ip, t.signup);
    LoginRoomLeft(form, hash, user, p, ip, ip2);
    var w3, until := Submission(env, FRESH, t.signup).w, BeforeSubmit(env, FRESH, t.signup).now + 2_592_000_000;
    NothingBetween(env, Serve(env, FRESH, t.signup.ask).w);
    NothingBetween(env, w3);
    CalmEverywhere(form, hash);
    ServeStill(env, FRESH, t.signup.ask);
    CalmLogin(form, hash, w3, user, q, ip2, tok, SignupTag(env.hash, tok, user, p), tok, until);
  }

  /** A hash that tells two texts from all others. */
  function Telling(a: string, b: string): Hasher {
    (x, s) => Repeated(if x == a then '1' else if x == b then '3' else '2', PASSWD_LEN)
  }

  lemma TellingOk(a: string, b: string)
    ensures TagsOk(Telling(a, b))
  {
    hide HexOk, Repeated;
    RepeatedOk('1', PASSWD_LEN);
    RepeatedOk('2', PASSWD_LEN);
    RepeatedOk('3', PASSWD_LEN);
  }

  lemma RepeatedDiffer(c: char, d: char)
    requires c != d
    ensures Repeated(c, PASSWD_LEN) != Repeated(d, PASSWD_LEN)
  {
    assert Repeated(c, PASSWD_LEN)[0] != Repeated(d, PASSWD_LEN)[0];
  }

  /** Nor is the other half empty: for any two different passwords there is a hash under which
      the compared texts do not collide, and the story with the wrong one ends with 211121. */
  lemma WrongPasswordRefused(form: Form, user: string, p: string, ip: string, q: string, ip2: string)
    requires CleanUser(user) && IpText(ip) && IpText(ip2) && p != q
    ensures var tok := Repeated('1', SALT_LEN);
            var hash := Telling(HashInput(tok, user, p), HashInput(tok, user, Repeated('1', PASSWD_LEN)));
            var env, t := CalmEnv(form, hash), TaleOf(hash, user, p, ip, q, ip2);
            && Story(env, FRESH, user, p, ip, q, ip2, t)
            && Submission(env, FRESH, t.signup).rt == 0
            && Submission(env, BeforeLogin(env, FRESH, t), t.login).rt == 211121
  {
    hide Story, Serve, Run, CleanUser, IpText, TagsOk, HexOk, Repeated, HashInput, Submission, BeforeLogin;
    var tok, ones := Repeated('1', SALT_LEN), Repeated('1', PASSWD_LEN);
    var a, b := HashInput(tok, user, p), HashInput(tok, user, ones);
    var hash := Telling(a, b);
    TellingOk(a, b);
    StoryHappens(form, hash, user, p, ip, q, ip2);
    RepeatedDiffer('1', '2');
    RepeatedDiffer('1', '3');
    RepeatedDiffer('2', '3');
    SameHead(tok, user, p, q);
    var tag' := SignupTag(hash, tok, user, q);
    SameHead(tok, user, ones, tag');
    EndToEnd(CalmEnv(form, hash), FRESH, user, p, ip, q, ip2, TaleOf(hash, user, p, ip, q, ip2));
  }

  lemma SameHead(salt: string, user: string, x: string, y: string)
    requires x != y
    ensures HashInput(salt, user, x) != HashInput(salt, user, y)
  {
    InputTail(salt, user, x);
    InputTail(salt, user, y);
  }

  lemma InputTail(salt: string, user: string, x: string)
    ensures HashInput(salt, user, x)[|salt| + |user| + 2..] == x
  {
  }
}
