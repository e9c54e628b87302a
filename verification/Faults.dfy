/** What a request ends with when an exchange with the store goes wrong: for every worker, at
    every command, in every interleaving (src/redis_get_int.c, src/redis_get_hget_string.c,
    src/redis_set_hset_key_value.c, src/http_server_main_loop_handler.c). */
module Faults {
  import opened Common
  import opened RedisStore
  import opened Protocol
  import opened Interleaving
  import opened ManyWorkers

  datatype Fault = NoConnection | NoAnswer | ErrorAnswer | OddAnswer

  /** A connection to db is there, or can be had. */
  predicate Reaches(link: Link, tick: Tick, db: int) {
    || (link.up && link.cached == db)
    || (link.up && tick.selectOk)
    || (!link.up && tick.connectOk && tick.authOk && tick.selectOk)
  }

  /** What is wrong with the exchange of a worker that stands at pc; db is the database of
      its next command. */
  function FaultAt(pc: Pc, link: Link, tick: Tick, db: int): Option<Fault> {
    if !pc.AtHExpire? && !Reaches(link, tick, db) then Some(NoConnection)
    else if pc.AtGate? || pc.AtReconnect? || tick.outcome.Answered? then None
    else match tick.outcome.kind
      case Null => Some(NoAnswer)
      case Error => Some(ErrorAnswer)
      case Odd => Some(OddAnswer)
  }

  function DbOf(pc: Pc, db: int): int {
    match pc
    case AtGate => db
    case AtReconnect(d, _) => d
    case _ => NextDb(pc, db)
  }

  function IntCode(fault: Fault): int {
    match fault case NoConnection => 129001 case NoAnswer => 129008 case ErrorAnswer => 129011 case OddAnswer => 129051
  }

  function TextCode(fault: Fault): int {
    match fault case NoConnection => 125001 case NoAnswer => 125006 case ErrorAnswer => 125011 case OddAnswer => 125021
  }

  function PutCode(fault: Fault): int {
    match fault case NoConnection => 135001 case NoAnswer => 135008 case ErrorAnswer => 135011 case OddAnswer => 135026
  }

  function ExpireCode(fault: Fault): int {
    match fault case NoConnection => 135018 case NoAnswer => 135013 case ErrorAnswer => 135015 case OddAnswer => 135018
  }

  /** Return value and response, by the command that failed and the way it did. */
  function FaultAnswer(pc: Pc, fault: Fault): (int, seq<Response>) {
    match pc
    case AtGate => (211021, [Refusal("22:" + DecText(111001))])
    case AtFlag(_) => (211021, [Refusal("22:" + DecText(IntCode(fault)))])
    case AtReconnect(_, _) => (211021, [Refusal("22:" + DecText(131001))])
    case AtIncr(_, _) => (211021, [Refusal("22:" + DecText(IntCode(fault)))])
    case AtExpire(_, _, _) => (211021, [Refusal("22:" + DecText(IntCode(fault)))])
    case AtNewSession(_) => (211051, [])
    case AtNewSalt(_) => (211051, [])
    case AtLookup(_) => (211061, [Refusal("34:" + DecText(TextCode(fault)))])
    case AtGuard(_) => (211091, [Refusal("24:" + DecText(IntCode(fault)) + ":-1")])
    case AtSetFlag(_) => (211101, [Refusal("34:" + DecText(PutCode(fault)))])
    case AtHSet(_) => (211111, [Refusal("44:" + DecText(PutCode(fault)))])
    case AtHExpire(_) => (211111, [Refusal("44:" + DecText(ExpireCode(fault)))])
    case AtHash(_) => (211130, [Refusal("29:211130")])
    case AtSalt(_, _) => (211140, [Refusal("29:211140")])
    case _ => (0, [])
  }

  lemma GateFault(env: Env, w: World, ty: PostType, rq: Request, pc: Pc, db: int)
    requires pc.AtGate? || pc.AtFlag? || pc.AtReconnect? || pc.AtIncr? || pc.AtExpire?
    requires FaultAt(pc, w.link, env.tape(w.pos), DbOf(pc, db)).Some?
    ensures var fault := FaultAt(pc, w.link, env.tape(w.pos), DbOf(pc, db)).value;
            Step(env, w, ty, rq, pc, db).1 == Closed(FaultAnswer(pc, fault).0, FaultAnswer(pc, fault).1)
  {
    hide Effect, TrueReply, Execute, BehindGate, DecText, Intact;
  }

  lemma SessionFault(env: Env, w: World, ty: PostType, rq: Request, pc: Pc, db: int)
    requires PcOk(pc) && (pc.AtNewSession? || pc.AtNewSalt? || pc.AtLookup? || pc.AtGuard? || pc.AtSetFlag?)
    requires FaultAt(pc, w.link, env.tape(w.pos), DbOf(pc, db)).Some?
    ensures var fault := FaultAt(pc, w.link, env.tape(w.pos), DbOf(pc, db)).value;
            Step(env, w, ty, rq, pc, db).1 == Closed(FaultAnswer(pc, fault).0, FaultAnswer(pc, fault).1)
  {
    hide Effect, TrueReply, Execute, DecText, Intact, CookiePc, FlagIp, GuardKey;
  }

  lemma RecordFault(env: Env, w: World, ty: PostType, rq: Request, pc: Pc, db: int)
    requires PcOk(pc) && (pc.AtHSet? || pc.AtHExpire? || pc.AtHash? || pc.AtSalt?)
    requires FaultAt(pc, w.link, env.tape(w.pos), DbOf(pc, db)).Some?
    ensures var fault := FaultAt(pc, w.link, env.tape(w.pos), DbOf(pc, db)).value;
            Step(env, w, ty, rq, pc, db).1 == Closed(FaultAnswer(pc, fault).0, FaultAnswer(pc, fault).1)
  {
    hide Effect, TrueReply, Execute, DecText, Intact, NewRecord;
  }

  /** Every exchange that goes wrong ends its request at once, with the return value of its
      place and the code of its fault; so a request is let through by answers only. */
  lemma FaultCloses(env: Env, w: World, ty: PostType, rq: Request, pc: Pc, db: int)
    requires PcOk(pc) && Active(pc) && FaultAt(pc, w.link, env.tape(w.pos), DbOf(pc, db)).Some?
    ensures var fault := FaultAt(pc, w.link, env.tape(w.pos), DbOf(pc, db)).value;
            Step(env, w, ty, rq, pc, db).1 == Closed(FaultAnswer(pc, fault).0, FaultAnswer(pc, fault).1)
  {
    hide Step, FaultAnswer, FaultAt, DbOf;
    if pc.AtNewSession? || pc.AtNewSalt? || pc.AtLookup? || pc.AtGuard? || pc.AtSetFlag? {
      SessionFault(env, w, ty, rq, pc, db);
    } else if pc.AtHSet? || pc.AtHExpire? || pc.AtHash? || pc.AtSalt? {
      RecordFault(env, w, ty, rq, pc, db);
    } else {
      GateFault(env, w, ty, rq, pc, db);
    }
  }
}
