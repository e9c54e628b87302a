/** The answer of the daemon to every request, when the store answers: a table that reads
    only the request, the store at its beginning and the clock
    (src/http_server_main_loop_handler.c and everything that it calls). */
module Verdicts {
  import opened Common
  import opened RedisStore
  import opened TextScan
  import opened HttpText
  import opened HttpParser
  import opened Cookies
  import opened PostPath
  import opened Protocol
  import opened History
  import opened Interleaving
  import opened Safety

  // ----- The table -----

  /** The time of the k-th exchange with the store from w on. */
  function Clock(tape: Tape, w: World, k: nat): int {
    if k == 0 then w.now else Clock(tape, w, k - 1) + tape(w.pos + k - 1).wait
  }

  predicate Stands(entry: Option<Entry>, t: int) {
    entry.Some? && (entry.value.expiry.Some? ==> t < entry.value.expiry.value)
  }

  /** Which call of its address a call at t is, by the counter that it finds. */
  function CallNumber(counter: Option<Entry>, t: int): int {
    if Stands(counter, t) && counter.value.value.Count? then counter.value.value.n + 1 else 1
  }

  function HomeOf(ty: PostType): int {
    match ty case Signup => 5 case Login => 1 case Admin => 12
  }

  function SessionName(ty: PostType): string {
    match ty case Signup => "signup_sess" case Login => "login_sess" case Admin => "admin_sess"
  }

  datatype Answer = Answer(rt: int, sent: seq<Response>)

  /** What the gate refuses with; None if it lets the request through. The flag is looked for
      at the second exchange, the call is counted at the fourth. */
  function GateAnswer(tape: Tape, w: World, ty: PostType, ip: string): Option<Answer> {
    var flag := At(w.store, HomeOf(ty), OkKey(ty, ip));
    var counter := At(w.store, HomeOf(ty), FailedKey(ty, ip));
    if !IpText(ip) then Some(Answer(211021, [Refusal("22:" + DecText(129011))]))
    else if ty == Signup && Stands(flag, Clock(tape, w, 2)) then
      Some(Answer(211021, [Refusal("22:" + DecText(111011))]))
    else if CallNumber(counter, Clock(tape, w, 4)) > (match ty case Signup => 5 case Login => 10 case Admin => 2) then
      Some(Answer(211021, [Refusal("22:" + DecText(111019))]))
    else None
  }

  /** Behind the gate, after k exchanges. A session: at login with the salt of a record that
      stands at the exchange after the next. */
  function AskAnswer(tape: Tape, w: World, k: nat, ty: PostType, rq: Request, user: string): Answer {
    var record := At(w.store, 0, UserKey(Login, user));
    if ty != Login then Answer(1, [Session(ty, rq.sess, rq.sesv, None)])
    else if Stands(record, Clock(tape, w, k + 2)) && record.value.value.Fields?
            && "salt" in record.value.value.fields then
      Answer(1, [Session(Login, rq.sess, rq.sesv, Some(record.value.value.fields["salt"]))])
    else Answer(211051, [])
  }

  /** The session and its cookie; None if both are as they should be. */
  function SessionAnswer(tape: Tape, w: World, k: nat, ty: PostType, rq: Request, p: Parsed): Option<Answer>
    requires p.Submit?
  {
    var session := At(w.store, HomeOf(ty), SessKey(ty, p.user, p.salt));
    if !(Stands(session, Clock(tape, w, k + 1)) && session.value.value.Text?) then
      Some(Answer(211061, [Refusal("34:" + DecText(125021))]))
    else if |session.value.value.text| != 32 then Some(Answer(211061, [Refusal("34:" + DecText(125041))]))
    else match CookieLookup(rq.buffer, SessionName(ty), 33)
      case Missing(code) => Some(Answer(211071, [Refusal("38:" + DecText(if code == 125005 then 125005 else 125009))]))
      case Found(v) => if v == session.value.value.text then None else Some(Answer(211081, [Refusal("39")]))
  }

  /** A signup behind its session: guard, flag, record and its lifetime, one exchange each. */
  function SignupAnswer(env: Env, w: World, k: nat, rq: Request, user: string): Answer {
    var guard := At(w.store, 0, UserKey(if env.form.guardOnRecord then Login else Signup, user));
    var record := At(w.store, 0, UserKey(Login, user));
    if Stands(guard, Clock(env.tape, w, k + 1)) then Answer(211100, [Refusal("29:211100")])
    else if !IpText(FlagIp(env.form, rq)) then Answer(211101, [Refusal("34:" + DecText(135011))])
    else if Stands(record, Clock(env.tape, w, k + 3)) && !Stands(record, Clock(env.tape, w, k + 4)) then
      Answer(211111, [Refusal("44:" + DecText(135018))])
    else Answer(0, [Welcome])
  }

  /** A login or admin submission behind its session: guard, hash, salt, comparison. */
  function LoginAnswer(env: Env, w: World, k: nat, ty: PostType, rq: Request, p: Parsed): Answer
    requires p.Submit?
  {
    var guard := At(w.store, 0, UserKey(if env.form.guardOnRecord then Login else ty, p.user));
    var record := At(w.store, 0, UserKey(Login, p.user));
    if !Stands(guard, Clock(env.tape, w, k + 1)) then Answer(211120, [Refusal("29:211120")])
    else if !Stands(record, Clock(env.tape, w, k + 2)) then Answer(211130, [Refusal("29:211130")])
    else if !Stands(record, Clock(env.tape, w, k + 3)) then Answer(211140, [Refusal("29:211140")])
    else if !rq.argonOk then Answer(211121, [Refusal("54:" + DecText(242011) + ":211121")])
    else if record.value.value.Fields? && "hash" in record.value.value.fields
            && env.hash(p.salt + ":" + p.user + ":" + record.value.value.fields["hash"], p.salt) == p.passwd
    then Answer(0, [Welcome])
    else Answer(211121, [Refusal("54:" + DecText(242041) + ":211121")])
  }

  // ----- The exchanges -----

  lemma IntAnswered(tape: Tape, w: World, db: int, cmd: Cmd)
    requires Smooth(tape(w.pos)) && (cmd.Exists? || cmd.Incr? || cmd.Expire?)
    ensures var got, t := GetInt(tape, w, db, cmd), Clock(tape, w, 1);
            && got.w.pos == w.pos + 1 && got.w.now == t
            && (!Intact(cmd) ==> got.rt == 129011 && got.w.store == w.store)
            && (Intact(cmd) && cmd.Exists? ==>
                  && got.rt == 0 && got.w.store == w.store
                  && got.n == if Stands(At(w.store, db, cmd.key), t) then 1 else 0)
            && (Intact(cmd) && cmd.Expire? ==> got.rt == 0)
            && (Intact(cmd) && cmd.Incr?
                && (At(w.store, db, cmd.key).Some? ==> At(w.store, db, cmd.key).value.value.Count?) ==>
                  && got.rt == 0
                  && got.n == CallNumber(At(w.store, db, cmd.key), t))
  {
  }

  lemma TextAnswered(tape: Tape, w: World, db: int, len: nat, cmd: Cmd)
    requires Smooth(tape(w.pos)) && Intact(cmd) && (cmd.Get? || cmd.HGet?)
    ensures var got, t, entry := GetString(tape, w, db, len, cmd), Clock(tape, w, 1), At(w.store, db, cmd.key);
            && got.w.pos == w.pos + 1 && got.w.now == t && got.w.store == w.store
            && (!Stands(entry, t) ==> got.rt == 125021)
            && (Stands(entry, t) && cmd.Get? && entry.value.value.Text? ==>
                  && got.rt == (if |entry.value.value.text| == len then 0 else 125041)
                  && (got.rt == 0 ==> got.s == entry.value.value.text))
            && (Stands(entry, t) && cmd.HGet? && entry.value.value.Fields? && cmd.field in entry.value.value.fields
                && |entry.value.value.fields[cmd.field]| == len ==>
                  got.rt == 0 && got.s == entry.value.value.fields[cmd.field])
  {
  }

  lemma PutAnswered(tape: Tape, w: World, db: int, ttl: int, cmd: Cmd)
    requires Smooth(tape(w.pos)) && cmd.SetEx?
    ensures var put := SetHset(tape, w, db, ttl, cmd);
            && put.w.pos == w.pos + 1 && put.w.now == Clock(tape, w, 1)
            && put.rt == (if Intact(cmd) then 0 else 135011)
  {
  }

  lemma ConnectAnswered(tape: Tape, w: World, db: int)
    requires Smooth(tape(w.pos))
    ensures var (w', up) := Connect(tape, w, db);
            up && w'.pos == w.pos + 1 && w'.now == Clock(tape, w, 1) && w'.store == w.store
  {
  }

  /** Clocks of a later world are those of the earlier one. */
  lemma {:induction false} ClockShifts(tape: Tape, w: World, w': World, j: nat, k: nat)
    requires w'.pos == w.pos + j && w'.now == Clock(tape, w, j)
    ensures Clock(tape, w', k) == Clock(tape, w, j + k)
    decreases k
  {
    if k > 0 { ClockShifts(tape, w, w', j, k - 1); }
  }

  // ----- The gate -----

  lemma GateTable(tape: Tape, w: World, ty: PostType, ip: string)
    requires SmoothFor(tape, w.pos, 5) && StoreOk(w)
    ensures var gate, answer := CheckIp(tape, w, IpCountDb(ty), ty, ip), GateAnswer(tape, w, ty, ip);
            && (answer.None? <==> gate.rt == 0)
            && (answer.Some? ==> answer.value == Answer(211021, [Refusal("22:" + DecText(gate.rt))]))
            && (gate.rt == 0 ==> gate.w.pos == w.pos + 5 && gate.w.now == Clock(tape, w, 5))
  {
    hide GetInt, Connect, Stands, CallNumber, IpText, DecText, EntryOk;
    var db := IpCountDb(ty);
    assert Smooth(tape(w.pos)) && Smooth(tape(w.pos + 1)) && Smooth(tape(w.pos + 2)) && Smooth(tape(w.pos + 3))
        && Smooth(tape(w.pos + 4));
    ConnectAnswered(tape, w, db);
    var w1 := Connect(tape, w, db).0;
    IntAnswered(tape, w1, db, Exists(OkKey(ty, ip)));
    ClockShifts(tape, w, w1, 1, 1);
    var flag := GetInt(tape, w1, db, Exists(OkKey(ty, ip)));
    if IpText(ip) {
      ConnectAnswered(tape, flag.w, db);
      ClockShifts(tape, w, flag.w, 2, 1);
      var w3 := Connect(tape, flag.w, db).0;
      CounterCounts(w, db, ty, ip);
      IntAnswered(tape, w3, db, Incr(FailedKey(ty, ip)));
      ClockShifts(tape, w, w3, 3, 1);
      var incr := GetInt(tape, w3, db, Incr(FailedKey(ty, ip)));
      IntAnswered(tape, incr.w, db, Expire(FailedKey(ty, ip), SIGNUP_FAILED_TTL));
      ClockShifts(tape, w, incr.w, 4, 1);
      assert flag.rt == 0 && flag.n == if Stands(At(w.store, db, OkKey(ty, ip)), Clock(tape, w, 2)) then 1 else 0;
      assert incr.rt == 0;
      assert incr.n == CallNumber(At(w.store, db, FailedKey(ty, ip)), Clock(tape, w, 4));
    }
  }

  lemma CounterCounts(w: World, db: int, ty: PostType, ip: string)
    requires StoreOk(w)
    ensures At(w.store, db, FailedKey(ty, ip)).Some? ==> At(w.store, db, FailedKey(ty, ip)).value.value.Count?
  {
    var k := FailedKey(ty, ip);
    if (db, k) in w.store { assert EntryOk(w.log, db, k, w.store[(db, k)]); }
  }

  // ----- Behind the gate -----

  /** The entries that the table reads are those of w, and the clock goes on. */
  ghost predicate Follows(tape: Tape, w: World, w': World, j: nat) {
    && w'.pos == w.pos + j && w'.now == Clock(tape, w, j)
    && forall db, k: Key :: !k.FailedKey? ==> At(w'.store, db, k) == At(w.store, db, k)
  }

  lemma RecordTyped(w: World, user: string)
    requires StoreOk(w)
    ensures var entry := At(w.store, 0, UserKey(Login, user));
            entry.Some? ==>
              && entry.value.value.Fields? && entry.value.value.fields.Keys == {"hash", "salt", "level", "status"}
              && |entry.value.value.fields["hash"]| == 64 && |entry.value.value.fields["salt"]| == 32
  {
    if (0, UserKey(Login, user)) in w.store {
      assert EntryOk(w.log, 0, UserKey(Login, user), w.store[(0, UserKey(Login, user))]);
    }
  }

  lemma SessionTyped(w: World, db: int, ty: PostType, user: string, salt: string)
    requires StoreOk(w)
    ensures var entry := At(w.store, db, SessKey(ty, user, salt)); entry.Some? ==> entry.value.value.Text?
  {
    if (db, SessKey(ty, user, salt)) in w.store {
      assert EntryOk(w.log, db, SessKey(ty, user, salt), w.store[(db, SessKey(ty, user, salt))]);
    }
  }

  lemma ClocksFollow(tape: Tape, w: World, w': World, j: nat, k: nat)
    requires Follows(tape, w, w', j)
    ensures Clock(tape, w', k) == Clock(tape, w, j + k)
  {
    ClockShifts(tape, w, w', j, k);
  }

  lemma AskTable(env: Env, w: World, w': World, k: nat, ty: PostType, rq: Request, user: string)
    requires StoreOk(w) && Follows(env.tape, w, w', k) && SmoothFor(env.tape, w'.pos, 2) && HexToken(rq.sess, 32)
    ensures var h := IssueSession(env, w', ty, rq, user);
            Answer(h.rt, h.sent) == AskAnswer(env.tape, w, k, ty, rq, user)
  {
    hide SetHset, GetString, HexToken, EntryOk;
    assert Smooth(env.tape(w'.pos)) && Smooth(env.tape(w'.pos + 1));
    var put := SetEx(SessKey(ty, user, rq.sesv), rq.sess, SESS_TTL);
    TokenIntact(put);
    PutAnswered(env.tape, w', IpCountDb(ty), SESS_TTL, put);
    ClocksFollow(env.tape, w, w', k, 1);
    var w1 := SetHset(env.tape, w', IpCountDb(ty), SESS_TTL, put).w;
    SetHsetFrame(env.tape, w', IpCountDb(ty), SESS_TTL, put, SALT_LOGIN_DB, UserKey(Login, user));
    RecordTyped(w, user);
    TextAnswered(env.tape, w1, SALT_LOGIN_DB, SALT_LEN, HGet(UserKey(Login, user), "salt"));
    ClockShifts(env.tape, w, w1, k + 1, 1);
  }

  lemma TokenIntact(cmd: Cmd)
    requires cmd.SetEx? && cmd.key.SessKey? && HexToken(cmd.text, 32)
    ensures Intact(cmd)
  {
  }

  lemma SessionTable(env: Env, w: World, w': World, k: nat, ty: PostType, rq: Request, p: Parsed)
    requires StoreOk(w) && Follows(env.tape, w, w', k) && Smooth(env.tape(w'.pos)) && p.Submit?
    requires HeadEnd(rq.buffer).Some?
    ensures var h, answer := CheckSession(env, w', ty, rq, p.user, p.salt), SessionAnswer(env.tape, w, k, ty, rq, p);
            && (answer.None? <==> h.rt == 0)
            && (answer.Some? ==> answer.value == Answer(h.rt, h.sent))
            && Follows(env.tape, w, h.w, k + 1)
  {
    hide GetString, EntryOk, CookieOf, CookieLookup, DecText;
    var get := Get(SessKey(ty, p.user, p.salt));
    SessionTyped(w, IpCountDb(ty), ty, p.user, p.salt);
    TextAnswered(env.tape, w', IpCountDb(ty), SALT_LEN, get);
    ClocksFollow(env.tape, w, w', k, 1);
    CookieCodes(ty, rq);
  }

  lemma CookieCodes(ty: PostType, rq: Request)
    requires HeadEnd(rq.buffer).Some?
    ensures CookieOf(ty, rq) == CookieLookup(rq.buffer, SessionName(ty), 33)
    ensures CookieOf(ty, rq).Missing? ==> CookieOf(ty, rq).code == 125005 || CookieOf(ty, rq).code == 125009
  {
    assert CookieName(ty) == SessionName(ty);
  }

  lemma LoginTable(env: Env, w: World, w': World, k: nat, ty: PostType, rq: Request, p: Parsed)
    requires StoreOk(w) && Follows(env.tape, w, w', k) && SmoothFor(env.tape, w'.pos, 3)
    requires ty != Signup && p.Submit? && |p.salt| == 32 && |p.passwd| == 64
    ensures var h := CheckRecord(env, w', ty, rq, p.user, p.passwd, p.salt);
            Answer(h.rt, h.sent) == LoginAnswer(env, w, k, ty, rq, p)
  {
    hide GetInt, GetString, EntryOk, SignupTail, DecText;
    assert Smooth(env.tape(w'.pos)) && Smooth(env.tape(w'.pos + 1)) && Smooth(env.tape(w'.pos + 2));
    var guard, key := Exists(GuardKey(env.form, ty, p.user)), UserKey(Login, p.user);
    IntAnswered(env.tape, w', SALT_LOGIN_DB, guard);
    ClocksFollow(env.tape, w, w', k, 1);
    var found := GetInt(env.tape, w', SALT_LOGIN_DB, guard);
    RecordTyped(w, p.user);
    TextAnswered(env.tape, found.w, SALT_LOGIN_DB, PASSWD_LEN, HGet(key, "hash"));
    ClockShifts(env.tape, w, found.w, k + 1, 1);
    var hash := GetString(env.tape, found.w, SALT_LOGIN_DB, PASSWD_LEN, HGet(key, "hash"));
    TextAnswered(env.tape, hash.w, SALT_LOGIN_DB, SALT_LEN, HGet(key, "salt"));
    ClockShifts(env.tape, w, hash.w, k + 2, 1);
  }

  lemma HSetAnswered(tape: Tape, w: World, user: string, f: map<string, string>)
    requires Smooth(tape(w.pos))
    requires At(w.store, 0, UserKey(Login, user)).Some? ==> At(w.store, 0, UserKey(Login, user)).value.value.Fields?
    ensures var (w', reply) := Issue(tape, w, SALT_LOGIN_DB, HSet(UserKey(Login, user), f));
            var before, after := At(w.store, 0, UserKey(Login, user)), At(w'.store, 0, UserKey(Login, user));
            var t := Clock(tape, w, 1);
            && SetVerdict(reply) == 0 && w'.pos == w.pos + 1 && w'.now == t
            && forall later :: t <= later ==> (Stands(after, later) <==> !(Stands(before, t) && !Stands(before, later)))
  {
  }

  lemma ExpireAnswered(tape: Tape, w: World, user: string)
    requires Smooth(tape(w.pos))
    ensures var (_, reply) := Send(tape, w, SALT_LOGIN_DB, Expire(UserKey(Login, user), NEW_USER_TTL));
            ExpireVerdict(reply)
            == if Stands(At(w.store, 0, UserKey(Login, user)), Clock(tape, w, 1)) then 0 else 135018
  {
  }

  lemma RecordPutTable(tape: Tape, w: World, user: string, f: map<string, string>)
    requires Smooth(tape(w.pos)) && Smooth(tape(w.pos + 1))
    requires At(w.store, 0, UserKey(Login, user)).Some? ==> At(w.store, 0, UserKey(Login, user)).value.value.Fields?
    ensures var record := At(w.store, 0, UserKey(Login, user));
            SetHset(tape, w, SALT_LOGIN_DB, NEW_USER_TTL, HSet(UserKey(Login, user), f)).rt
            == if Stands(record, Clock(tape, w, 1)) && !Stands(record, Clock(tape, w, 2)) then 135018 else 0
  {
    hide Issue, Send, Stands, At, ExpireVerdict, SetVerdict;
    HSetAnswered(tape, w, user, f);
    var w1 := Issue(tape, w, SALT_LOGIN_DB, HSet(UserKey(Login, user), f)).0;
    ExpireAnswered(tape, w1, user);
    ClockShifts(tape, w, w1, 1, 1);
  }

  lemma SignupTable(env: Env, w: World, w': World, k: nat, rq: Request, p: Parsed)
    requires StoreOk(w) && Follows(env.tape, w, w', k) && SmoothFor(env.tape, w'.pos, 4) && p.Submit?
    ensures var h := CheckRecord(env, w', Signup, rq, p.user, p.passwd, p.salt);
            Answer(h.rt, h.sent) == SignupAnswer(env, w, k, rq, p.user)
  {
    hide GetInt, SetHset, EntryOk, LoginTail, DecText, NewRecord, Stands, IpText, FlagIp;
    assert Smooth(env.tape(w'.pos)) && Smooth(env.tape(w'.pos + 1)) && Smooth(env.tape(w'.pos + 2))
        && Smooth(env.tape(w'.pos + 3));
    var guard := Exists(GuardKey(env.form, Signup, p.user));
    IntAnswered(env.tape, w', SALT_LOGIN_DB, guard);
    ClocksFollow(env.tape, w, w', k, 1);
    var found := GetInt(env.tape, w', SALT_LOGIN_DB, guard);
    var put := SetEx(OkKey(Signup, FlagIp(env.form, rq)), "1", SIGNUP_OK_TTL);
    FlagIntact(put);
    PutAnswered(env.tape, found.w, IpCountDb(Signup), SIGNUP_OK_TTL, put);
    ClockShifts(env.tape, w, found.w, k + 1, 1);
    var flag := SetHset(env.tape, found.w, IpCountDb(Signup), SIGNUP_OK_TTL, put);
    SetHsetFrame(env.tape, found.w, IpCountDb(Signup), SIGNUP_OK_TTL, put, SALT_LOGIN_DB, UserKey(Login, p.user));
    RecordTyped(w, p.user);
    RecordPutTable(env.tape, flag.w, p.user, NewRecord(p.passwd, p.salt));
    ClockShifts(env.tape, w, flag.w, k + 2, 1);
    ClockShifts(env.tape, w, flag.w, k + 2, 2);
  }

  lemma FlagIntact(cmd: Cmd)
    requires cmd.SetEx? && cmd.key.OkKey? && cmd.text == "1"
    ensures Intact(cmd) <==> IpText(cmd.key.ip)
  {
  }

  // ----- The whole table -----

  /** The answer to a request: to a line that is no accepted request, at the gate, to a body
      that is not understood, to the two kinds of bodies. */
  function Expected(env: Env, w: World, rq: Request): Answer {
    match Classify(rq.buffer)
    case Overread => Answer(-1, [])
    case Refused(code) => Answer(code, [Refusal("20:" + DecText(code) + ":[" + Cut(rq.buffer, 25) + "]")])
    case Accepted(ty) =>
      var gate := GateAnswer(env.tape, w, ty, rq.ip);
      if gate.Some? then gate.value
      else if HeadEnd(rq.buffer).None? then Answer(211031, [Refusal("24")])
      else match ParseSession(ty, rq.json)
        case Rejected(_) => Answer(211041, [Refusal("30:1")])
        case NewSession(user) => AskAnswer(env.tape, w, 5, ty, rq, user)
        case Submit(user, passwd, salt) =>
          var p := Submit(user, passwd, salt);
          var session := SessionAnswer(env.tape, w, 5, ty, rq, p);
          if session.Some? then session.value
          else if ty == Signup then SignupAnswer(env, w, 6, rq, user)
          else LoginAnswer(env, w, 6, ty, rq, p)
  }

  lemma GateFollowed(env: Env, w: World, ty: PostType, ip: string)
    requires SmoothFor(env.tape, w.pos, 5) && StoreOk(w)
    requires CheckIp(env.tape, w, IpCountDb(ty), ty, ip).rt == 0
    ensures Follows(env.tape, w, CheckIp(env.tape, w, IpCountDb(ty), ty, ip).w, 5)
  {
    hide CheckIp, At, Trace, EntryOk;
    GateTable(env.tape, w, ty, ip);
    forall db, k: Key | !k.FailedKey?
      ensures At(CheckIp(env.tape, w, IpCountDb(ty), ty, ip).w.store, db, k) == At(w.store, db, k)
    {
      GateFrame(env.tape, w, ty, ip, db, k);
    }
  }

  lemma SubmitTable(env: Env, w: World, w': World, ty: PostType, rq: Request, p: Parsed)
    requires StoreOk(w) && Follows(env.tape, w, w', 5) && SmoothFor(env.tape, w'.pos, 5)
    requires p == ParseSession(ty, rq.json) && p.Submit? && HeadEnd(rq.buffer).Some?
    ensures var h := HandleSubmit(env, w', ty, rq, p.user, p.passwd, p.salt);
            var session := SessionAnswer(env.tape, w, 5, ty, rq, p);
            Answer(h.rt, h.sent) == if session.Some? then session.value
                                    else if ty == Signup then SignupAnswer(env, w, 6, rq, p.user)
                                    else LoginAnswer(env, w, 6, ty, rq, p)
  {
    hide CheckSession, CheckRecord, ParseSession, SessionAnswer, SignupAnswer, LoginAnswer, EntryOk;
    assert Smooth(env.tape(w'.pos));
    SessionTable(env, w, w', 5, ty, rq, p);
    var session := CheckSession(env, w', ty, rq, p.user, p.salt);
    SubmitLengths(ty, rq);
    assert forall i :: session.w.pos <= i < session.w.pos + 4 ==> Smooth(env.tape(i));
    if session.rt == 0 {
      if ty == Signup { SignupTable(env, w, session.w, 6, rq, p); }
      else { LoginTable(env, w, session.w, 6, ty, rq, p); }
    }
  }

  lemma SubmitLengths(ty: PostType, rq: Request)
    requires ParseSession(ty, rq.json).Submit?
    ensures |ParseSession(ty, rq.json).passwd| == 64 && |ParseSession(ty, rq.json).salt| == 32
  {
  }

  /** The decision of every request. Whatever the store holds of the daemon's entries, and however
      long each exchange takes: if the store answers, return value and response are the
      table's. */
  lemma AnswerExactly(env: Env, w: World, rq: Request)
    requires StoreOk(w) && SmoothFor(env.tape, w.pos, 10) && HexToken(rq.sess, 32)
    ensures Answer(Serve(env, w, rq).rt, Serve(env, w, rq).sent) == Expected(env, w, rq)
  {
    hide CheckIp, HandleSubmit, IssueSession, ParseSession, HeadEnd, GateAnswer, AskAnswer, SessionAnswer, SignupAnswer,
      LoginAnswer, HexToken, EntryOk, DecText, StoreOk;
    if Classify(rq.buffer).Accepted? {
      var ty := Classify(rq.buffer).ty;
      assert forall i :: w.pos <= i < w.pos + 10 ==> Smooth(env.tape(i));
      GateTable(env.tape, w, ty, rq.ip);
      var gate := CheckIp(env.tape, w, IpCountDb(ty), ty, rq.ip);
      if gate.rt == 0 {
        GateFollowed(env, w, ty, rq.ip);
        var p := ParseSession(ty, rq.json);
        if HeadEnd(rq.buffer).Some? && p.NewSession? { AskTable(env, w, gate.w, 5, ty, rq, p.user); }
        if HeadEnd(rq.buffer).Some? && p.Submit? { SubmitTable(env, w, gate.w, ty, rq, p); }
      }
    }
  }

  /** In particular after any requests, served before under any failures. */
  lemma AnswerInRun(env: Env, rqs: seq<Request>, rq: Request)
    requires SmoothFor(env.tape, Run(env, FRESH, rqs).pos, 10) && HexToken(rq.sess, 32)
    ensures var h := Serve(env, Run(env, FRESH, rqs), rq);
            Answer(h.rt, h.sent) == Expected(env, Run(env, FRESH, rqs), rq)
  {
    hide Run, RunAll, RunMoves, Serve, Expected, HexToken, SmoothFor, LogOk;
    RunIsReachable(env, rqs);
    ReachableOk(env, 1, RunMoves(rqs));
    AnswerExactly(env, Run(env, FRESH, rqs), rq);
  }
}
