/** The key-value store with expiring keys, seen command by command, and the
    unreliable exchange that carries one command to it. */
module RedisStore {
  import opened Common
  import opened TextScan

  /** The key families the daemon uses; Wire.KeyText gives their text. */
  datatype Key =
    | SessKey(ty: PostType, user: string, salt: string)
    | OkKey(ty: PostType, ip: string)
    | FailedKey(ty: PostType, ip: string)
    | UserKey(ty: PostType, user: string)

  datatype Value = Text(text: string) | Count(n: int) | Fields(fields: map<string, string>)

  datatype Entry = Entry(value: Value, expiry: Option<int>)

  type Store = map<(int, Key), Entry>

  datatype Cmd =
    | Get(key: Key)
    | SetEx(key: Key, text: string, ttl: int)
    | HSet(key: Key, fields: map<string, string>)
    | HGet(key: Key, field: string)
    | Exists(key: Key)
    | Incr(key: Key)
    | Expire(key: Key, ttl: int)

  datatype Reply =
    | IntReply(n: int)
    | StrReply(s: string)
    | StatusReply
    | NilReply
    | ErrorReply
    | OtherReply      // a reply of a type the caller does not expect
    | NoReply         // a null reply pointer
    | NotConnected    // redis_connect_thread gave up before the command was sent

  /** An entry is visible until the instant its expiry is reached. */
  predicate Live(st: Store, db: int, k: Key, now: int) {
    (db, k) in st && (st[(db, k)].expiry.None? || now < st[(db, k)].expiry.value)
  }

  function At(st: Store, db: int, k: Key): Option<Entry> {
    if (db, k) in st then Some(st[(db, k)]) else None
  }

  /** INCR and HSET keep the expiry of a live key, SET replaces it, EXPIRE sets it. */
  function Effect(st: Store, db: int, cmd: Cmd, now: int): Store {
    match cmd
    case Get(_) => st
    case HGet(_, _) => st
    case Exists(_) => st
    case SetEx(k, text, ttl) => st[(db, k) := Entry(Text(text), Some(now + Millis(ttl)))]
    case HSet(k, f) =>
      if !Live(st, db, k, now) then st[(db, k) := Entry(Fields(f), None)]
      else if st[(db, k)].value.Fields? then
        st[(db, k) := Entry(Fields(st[(db, k)].value.fields + f), st[(db, k)].expiry)]
      else st
    case Incr(k) =>
      if !Live(st, db, k, now) then st[(db, k) := Entry(Count(1), None)]
      else if st[(db, k)].value.Count? then
        st[(db, k) := Entry(Count(st[(db, k)].value.n + 1), st[(db, k)].expiry)]
      else st
    case Expire(k, ttl) =>
      if Live(st, db, k, now) then
        st[(db, k) := Entry(st[(db, k)].value, Some(now + Millis(ttl)))]
      else st
  }

  function TrueReply(st: Store, db: int, cmd: Cmd, now: int): Reply {
    match cmd
    case Get(k) =>
      if !Live(st, db, k, now) then NilReply
      else (match st[(db, k)].value
            case Text(s) => StrReply(s)
            case Count(n) => StrReply(DecText(n))
            case Fields(_) => ErrorReply)
    case HGet(k, f) =>
      if !Live(st, db, k, now) then NilReply
      else (match st[(db, k)].value
            case Fields(m) => if f in m then StrReply(m[f]) else NilReply
            case _ => ErrorReply)
    case Exists(k) => IntReply(if Live(st, db, k, now) then 1 else 0)
    case SetEx(_, _, _) => StatusReply
    case HSet(k, f) =>
      if !Live(st, db, k, now) then IntReply(|f|)
      else (match st[(db, k)].value
            case Fields(m) => IntReply(|f.Keys - m.Keys|)
            case _ => ErrorReply)
    case Incr(k) =>
      if !Live(st, db, k, now) then IntReply(1)
      else (match st[(db, k)].value
            case Count(n) => IntReply(n + 1)
            case _ => ErrorReply)
    case Expire(k, _) => IntReply(if Live(st, db, k, now) then 1 else 0)
  }

  // ----- Which commands reach the store as they are meant -----

  /** What must not appear in an argument: the separator, the format sign, NUL. */
  const SPECIAL: set<char> := {' ', '%', '\0'}

  const IP_MAX_LEN := 15

  predicate IpText(ip: string) {
    |ip| <= IP_MAX_LEN && Free(ip, SPECIAL)
  }

  /** Names and salts are validated before they enter a command; addresses and values are
      not. Where one of these holds a space or is missing, the client library cuts the text
      into other arguments, and the store answers with a syntax error. */
  predicate Intact(cmd: Cmd) {
    && (cmd.key.OkKey? || cmd.key.FailedKey? ==> IpText(cmd.key.ip))
    && (cmd.SetEx? ==> cmd.text != "" && Free(cmd.text, SPECIAL))
  }

  // ----- One exchange -----

  datatype Failure = Null | Error | Odd

  /** A command is answered truly, or fails after having run or not. */
  datatype Outcome = Answered | Failed(kind: Failure, ran: bool)

  /** Everything the surroundings decide about one helper step. */
  datatype Tick = Tick(wait: nat, connectOk: bool, authOk: bool, selectOk: bool, outcome: Outcome)

  type Tape = nat -> Tick

  /** The thread's own view of its connection: is ctx set, and current_dbIdx. */
  datatype Link = Link(up: bool, cached: int)

  datatype Event =
    | Ran(at: int, db: int, cmd: Cmd)
    | SessRead(at: int, ty: PostType, user: string, salt: string, value: string)
    | GatePassed(at: int, gate: PostType, ip: string, count: int, armed: bool)

  /** The log is a history variable: no step reads it. */
  datatype World = World(store: Store, now: int, pos: nat, log: seq<Event>, link: Link)

  function Dial(link: Link, tick: Tick, db: int): (r: (Link, bool))
    ensures r.1 ==> r.0 == Link(true, db)
    ensures !r.1 ==> !r.0.up
  {
    if link.up && link.cached == db then (link, true)
    else if link.up then
      if tick.selectOk then (Link(true, db), true) else (Link(false, -1), false)
    else if tick.connectOk && tick.authOk && tick.selectOk then (Link(true, db), true)
    else (Link(false, -1), false)
  }

  function Execute(w: World, db: int, cmd: Cmd): World {
    w.(store := Effect(w.store, db, cmd, w.now), log := w.log + [Ran(w.now, db, cmd)])
  }

  function Settle(w: World, outcome: Outcome, db: int, cmd: Cmd): (World, Reply) {
    match outcome
    case Answered =>
      if Intact(cmd) then (Execute(w, db, cmd), TrueReply(w.store, db, cmd, w.now)) else (w, ErrorReply)
    case Failed(kind, ran) =>
      var w1 := if ran && Intact(cmd) then Execute(w, db, cmd) else w;
      match kind
      case Null => (w1.(link := Link(false, w1.link.cached)), NoReply)
      case Error => (w1, ErrorReply)
      case Odd => (w1, OtherReply)
  }

  function Clocked(tape: Tape, w: World): World {
    w.(now := w.now + tape(w.pos).wait, pos := w.pos + 1)
  }

  /** What any single step on (db, cmd) may do to the world. */
  ghost predicate Stepped(w: World, w': World, db: int, cmd: Cmd) {
    && w.now <= w'.now
    && w'.pos == w.pos + 1
    && (|| (w'.store == w.store && w'.log == w.log)
        || (Intact(cmd) && w'.store == Effect(w.store, db, cmd, w'.now) && w'.log == w.log + [Ran(w'.now, db, cmd)]))
  }

  /** An informative reply is the true one, and the command has run. */
  ghost predicate Truthful(w: World, w': World, db: int, cmd: Cmd, reply: Reply) {
    reply.IntReply? || reply.StrReply? || reply.StatusReply? || reply.NilReply? ==>
      && Intact(cmd) && reply == TrueReply(w.store, db, cmd, w'.now)
      && w'.store == Effect(w.store, db, cmd, w'.now)
      && w'.log == w.log + [Ran(w'.now, db, cmd)]
  }

  /** redis_connect_thread on its own. */
  function Connect(tape: Tape, w: World, db: int): (r: (World, bool))
    ensures r.0.store == w.store && r.0.log == w.log
    ensures w.now <= r.0.now && r.0.pos == w.pos + 1
  {
    var (link, up) := Dial(w.link, tape(w.pos), db);
    (Clocked(tape, w).(link := link), up)
  }

  /** redis_connect_thread followed by one command. */
  function Issue(tape: Tape, w: World, db: int, cmd: Cmd): (r: (World, Reply))
    ensures Stepped(w, r.0, db, cmd)
    ensures Truthful(w, r.0, db, cmd, r.1)
    ensures r.0.now == w.now + tape(w.pos).wait
  {
    var (w1, up) := Connect(tape, w, db);
    if up then Settle(w1, tape(w.pos).outcome, db, cmd) else (w1, NotConnected)
  }

  /** One command on the connection as it stands. */
  function Send(tape: Tape, w: World, db: int, cmd: Cmd): (r: (World, Reply))
    ensures Stepped(w, r.0, db, cmd)
    ensures Truthful(w, r.0, db, cmd, r.1)
    ensures r.0.now == w.now + tape(w.pos).wait
  {
    Settle(Clocked(tape, w), tape(w.pos).outcome, db, cmd)
  }

  /** A tick on which nothing goes wrong. */
  predicate Smooth(tick: Tick) {
    tick.connectOk && tick.authOk && tick.selectOk && tick.outcome.Answered?
  }

  ghost predicate SmoothFor(tape: Tape, from: nat, n: nat) {
    forall i :: from <= i < from + n ==> Smooth(tape(i))
  }
}
