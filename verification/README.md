# Signup and login sessions: a Dafny model

The repository is a small signup/login system: a C daemon that answers POST requests, a
browser page that hashes passwords twice, and a Redis store whose keys expire. A request
passes a per-address gate, is parsed, and then either receives a session (a cookie and a
salt) or presents one together with a password hash. This project models the three parties
and proves what they promise each other, over every run.

`dafny verify dfyconfig.toml` checks everything.

## How the model is laid out

| module | what it holds |
|---|---|
| `Common`, `TextScan`, `HttpText`, `CBuffer` | constants, searching and splitting text, the shape of an HTTP message, text in C buffers |
| `RedisStore` | the timed store, command by command, and one exchange with it: connect, send, answer or fail |
| `Validators`, `HttpParser`, `Cookies`, `PostPath`, `Hashing` | the hand-written loops of daemon and browser, each proved against a declarative definition |
| `Protocol` | the daemon's functions as functions of the world, branch by branch |
| `Daemon` | the daemon's code in its own, imperative form, proved to do what `Protocol` says |
| `History`, `GateHistory`, `WindowBound`, `PassCount`, `SignupRules` | one worker: frames, the gate against its history, the bounds on passes, flags and records |
| `Interleaving`, `Safety`, `LoginSafety`, `Outcomes`, `SentCommands` | any number of workers that advance one command at a time, in any order |
| `ManyWorkers`, `Races`, `RaceExample` | what n workers can do within a window: passes, flags, and the loss of a record |
| `Verdicts`, `Faults`, `Decisions` | the answer to every request as a table over the request, the store and the clock; the answer to every failed exchange; what each success means, for every world |
| `Client`, `Completeness`, `StoryExample` | the browser, the four requests of a signup and a login end to end, and a story that meets all assumptions made there |
| `AsWritten` | the two places below over whole runs, and runs in which their rules fail |
| `Wire`, `Responses`, `ClientReads` | command texts, response bytes, and what the browser reads back from them |

**World and tape.** A world is the store, the clock (milliseconds, never going back), a
history of executed commands, and the thread's connection. Everything the surroundings
decide (how long a step takes, whether connecting, authentication and SELECT work, whether
a command is answered, answered wrongly, or lost before or after it ran) is read from a
tape. A statement about every tape is a statement about every failure. The history is
written and never read by the daemon.

**Two forms.** At two places the code does something else than its comments say:

* `src/http_server_main_loop_handler.c:87` asks for `<type>User:<name>`, while records are
  written at `loginUser:<name>` (lines 111-112);
* `src/http_server_main_loop_handler.c:102` prints `ip`, a pointer to a pointer, where line
  16 passes `*ip`; the text it prints is a part of each request here (`flagText`). Whether the
  store gets the command it is meant to get depends on that text: if a space stands before its
  end, the client library cuts it and the store refuses a SET with too many words
  (`Wire.FlagCommandSplits`), so that the signup returns 211101. A signup as written succeeds
  with a plain text (`FlagPlain`) and fails with a cut one (`FlagCut`); spaces at the end are
  dropped. Which of the two it is, is decided by the bytes of an address in memory.

`Form` names both alternatives at both places; `LITERAL` is the code as written. The results
hold for every form unless they say otherwise, and what the places amount to is decided over
whole runs:

* The rule "one account per address and hour" (README.md:20) holds from a signup on that named
  its flag by its address, in either form (`SignupRules.AccountsAnHourApart`). A second honest
  visit of the address within the hour is refused at the gate if and only if the first one did;
  if not, it fares as its own flag text decides (`AsWritten.SecondSignupExactly`). The code as
  written does not name flags so, and `AsWritten.HourRuleFails` is a run of four requests from
  the empty store in which two names are signed up from one address while no time passes.
* A signup for a name with a live record is refused as a duplicate if and only if the guard asks
  for the record's key (`AsWritten.TakenNameInRun`). The code as written asks for another one, and
  `AsWritten.LiveRecordLost` is a run in which a record with 30 days to live is replaced at
  once. It also finds no admin (`Safety.LiteralGuardFindsNothing`).
* With several workers both rules have a gap that repairing the two places does not close. A
  live record is replaced only when another HSET of its name fell between a worker's guard and
  its own HSET (`Races.OverwriteIsRace`), and that happens (`RaceExample.RaceHappens`). With
  flags named by the address, at most n signups of one address set theirs within the hour when
  there are n workers (`ManyWorkers.AccountsBounded`).

Other facts about the code that the results make explicit:

* `parse_session_json` is declared `bool`, so each of its codes reaches the handler as 1.
* `redis_increment` does not look at what EXPIRE answers. When the counter dies between INCR
  and EXPIRE, the call passes and leaves no counter (`WindowBound.LateExpireDisarms`). With
  INCR and EXPIRE in one instant the limits 5, 10 and 2 hold in every window of 3610 s
  (`PassCount.PromptCallsBounded`); without any assumption one call more can pass
  (`PassCount.CallsBounded`), and it does (`PassCount.OneMoreHappens`). With n workers it is
  at most n calls more, as long as the shared counter index reads true
  (`ManyWorkers.GateBounded`).
* The bound of the search loop at `src/check_post_type_path.c:39` is unsigned and wraps when
  fewer than four bytes are left (`PostPath.ThreadState.CheckPostTypePath` says exactly when).
* A body of 3072 bytes or more would be cut, but not its Content-Length
  (`Responses.FramingExact`); no response of the daemon comes near that
  (`Responses.ResponseFits`).
* An argument that is empty or holds a space would be cut differently by the store's client
  library (`Wire.SplitExactly`).
* Sessions are deleted by expiry only; nothing here says that a session is used once.

## Model

| member | source | states |
|---|---|---|
| Completeness.EndToEnd | src/http_server_main_loop_handler.c:40-154 | From any state with room in the counters of two plain addresses and no live flag, for a name that can be signed up, and with a plain text for the signup's flag: an honest browser that signs up with p from one address and logs in with q from the other (or the same) gets 1, 0, 1, and then 0 if q is p; if q is not p it gets 211121 unless the compared hashes collide. Requests of other names and addresses may come between the two of a visit, requests of other names between the visits, with any failures; the page may lie in any directory without "HTTP/" in it. |
| StoryExample.StoryHappens | src/http_server_main_loop_handler.c:40-154 | The assumptions of EndToEnd can be met: for either form, any hash, any clean name, passwords and plain addresses there is such a story from the empty store. |
| StoryExample.WrongPasswordRefused | src/calc_hash_for_login.c:15-32 | For any two different passwords there is a hash under which the compared inputs do not collide, and such a story in which the login with the wrong password returns 211121. |
| AsWritten.SecondSignupExactly | src/http_server_main_loop_handler.c:94-118 | After any run with a successful signup, within the hour of its flag and with no later signup naming the address: another honest visit of the address, for an open name, is refused at its first request if the signup named its flag by the address. If it did not, the visit gets 1 and then, by the text printed for its own flag, 0 if that is plain and 211101 if it is cut. |
| AsWritten.HourRuleFails | src/http_server_main_loop_handler.c:102 | In the code as written, for any two clean names and any non-empty plain address: four requests from the empty store sign both up from that address, both return 0, and the clock has not moved. |
| AsWritten.TakenNameInRun | src/http_server_main_loop_handler.c:84-118 | After any run, an honest visit for a name whose record outlives it: with the guard on the record's key it returns 211100 and the record is unchanged; as written it returns 0 with the record replaced if its printed flag text is plain, and 211101 with the record unchanged if that is cut. |
| AsWritten.LiveRecordLost | src/http_server_main_loop_handler.c:87-112 | In the code as written, for any clean name and plain addresses: of two visits from the empty store both return 0, and the first record, live for 30 days, is replaced by the second at once. |
| AsWritten.RoomGrows | src/redis_increment.c:15-31 | A request raises a counter by one at most, whatever fails. |
| Verdicts.AnswerExactly | src/http_server_main_loop_handler.c:3-155 | When the store answers, return value and response of every request, from every store that the daemon can leave and however long each exchange takes, are those of one table over the request, the store at the beginning and the clock: for a line that is not accepted, the gate with its limits 5, 10 and 2, a body that is not understood, a session asked for, the session and its cookie, a signup and a login, with every code. |
| Verdicts.AnswerInRun | src/http_server_main_loop.c:43-92 | In particular after any requests served before under any failures. |
| Verdicts.GateTable | src/redis_check_ip.c:3-44 | The gate's part of the table: 129011 for an address that is not plain, 111011 for a signup that finds a flag, 111019 beyond the limit, and otherwise through. |
| Faults.FaultCloses | src/redis_get_int.c:15-70 | For every worker at every command: an exchange that finds no connection, no answer, an error or an unexpected answer ends the request at once, with the return value of its place and the code of its fault. |
| Decisions.LoginSound | src/http_server_main_loop_handler.c:59-151 | For every world and every tape: a login or admin request that returned 0 submitted a name, a hash and a salt; its session stood with the value of its cookie; a record of the name was alive when it began, and hash(salt:name:stored hash, salt) is what it submitted. |
| Decisions.NoLoginWithoutRecord | src/http_server_main_loop_handler.c:120-124 | A login with a valid session for a name whose record is gone returns 211120 and the refusal 29:211120, whatever hash it submits. |
| Decisions.SessionSound | src/sess_handle_new_request.c:4-32 | For every world and every tape: a request that returned 1 asked for a session of a name, stored the pair for 300 s, and sent exactly that pair, at login with the 32-character salt of a record alive when it began, and otherwise without a salt. |
| Decisions.NoSessionWithoutRecord | src/sess_handle_new_request.c:14-19 | A login session asked for a name without a record ends with 211051, and nothing is sent. |
| Decisions.SignupSound | src/http_server_main_loop_handler.c:84-118 | For every world and every tape: a signup that returned 0 had a standing session with the value of its cookie, the record that its guard asks for was dead, and the name's record now holds its hash and salt, level 0 and status active, for 30 days. |
| Completeness.SignupHalf | signup_html/calc_passHash.js:2-24 | The signup visit: session, strangers, submission. With a plain flag text it succeeds, and afterwards the record holds the browser's tag and salt for 30 days; with a cut one it returns 211101 and the record is as before. |
| Completeness.LoginHalf | src/calc_hash_for_login.c:15-32 | The login visit: against a kept record the outcome is that of the tag comparison and nothing else. |
| Completeness.TakenName | src/http_server_main_loop_handler.c:84-118 | An honest signup visit for a name whose record outlives it gets 1 and then: with the guard on the record's key 211100, and the record stays; as written 0 with a plain flag text, and the record is the newcomer's, or 211101 with a cut one, and the record stays. |
| Completeness.SignupAsked | src/sess_handle_new_request.c:4-32 | A first request inside the limits returns 1, sends exactly the session pair, and the pair stays in the store for 300 s. |
| Completeness.SignupSubmitted | src/http_server_main_loop_handler.c:59-118 | A submission with the issued session, cookie and clean name returns 0 and leaves the record for 30 days if its flag text is plain; it returns 211101 and changes no record of the name if that text is cut. |
| Completeness.LoginAsked | src/sess_handle_new_request.c:14-28 | A login session for a kept record returns 1 and carries the salt that was stored at signup. |
| Completeness.LoginSubmitted | src/http_server_main_loop_handler.c:120-151 | Behind a valid session a login returns 0 or 211121, decided by the comparison. |
| Completeness.StrangersLeave | src/http_server_main_loop_handler.c:3-155 | Requests of other names and addresses leave every key of a name and an address as it is. |
| Safety.SessionProvenance | src/http_server_main_loop_handler.c:59-82 | In every interleaving, under every failure, even with another type's database index: a submission that returned 0 looked up a session that an earlier command had stored for the same type, name and salt, less than 300 s before, with the value of the submitted cookie. |
| LoginSafety.LoginProvenance | src/http_server_main_loop_handler.c:120-151 | In every interleaving and under every failure: a login or admin submission that returned 0 submitted the answer, in its session, to a hash that an HSET of the run had stored for its name. |
| Safety.ReachableOk | src/http_server_main_loop_handler.c:3-155 | The invariant behind it (history, store and every worker's position) holds in every reachable state. |
| Safety.StepKeeps | src/sess_handle_new_request.c:4-32 | Each single command of each worker keeps that invariant. |
| Safety.EntriesAndCommands | src/common.h:7-17 | In every reachable state: each executed command is one of the daemon's, in its database (records 0, signup 5, login 1, admin 12) and with its lifetime; each entry expires 300 s, 3600 s, 3610 s or 30 days after the command that set its lifetime. |
| Safety.UserTable | src/http_server_main_loop_handler.c:111-142 | In every reachable state every record stands at loginUser under a clean name with non-zero 64-hex hash, non-zero 32-hex salt, level 0, status active; it was written by one HSET, before which a signup session of that name and salt was looked up. |
| Safety.RunUserTable | src/http_server_main_loop_handler.c:111-112 | The same table, for every run of one worker. |
| Safety.LookupsAreOfIssued | src/sess_handle_new_request.c:5-9 | Every lookup in a history found a session issued for the same type, name, salt and value less than 300 s earlier. |
| Safety.RecordLengthsFit | src/redis_get_hget_string.c:42-53 | Reading hash or salt of a name yields them when the record is live and "no string" when it is not; the length error 125041 cannot occur. |
| Safety.LiteralGuardFindsNothing | src/http_server_main_loop_handler.c:84-124 | With the guard as written no reachable state has a signupUser or adminUser record, no signup returns 211100, and no admin submission returns 0. |
| Interleaving.SoloIsHandle | src/http_server_main_loop_handler.c:3-155 | The command-by-command machine, one worker undisturbed, is exactly the request handler: the two forms of the model agree. |
| Interleaving.RunIsReachable | src/http_server_main_loop.c:43-92 | Serving requests one after the other is the interleaving of a single worker, so what holds in every reachable state holds after every run. |
| Interleaving.StepDescends | src/http_server_main_loop_handler.c:3-155 | Every command brings its worker nearer to the end of its request. |
| GateHistory.GateFollowsRule | src/redis_check_ip.c:11-43 | One gate call of a plain address returns what the rule says of the burst of calls it extends and of the flag; the stored counter stays the burst. |
| GateHistory.CounterRefinesHistory | src/redis_increment.c:15-31 | Over any sequence of requests, the counter of a type and address is the length of the current burst and expires 3610 s after its last call. |
| GateHistory.KthCallPasses | src/redis_check_ip.c:30-43 | After any run from the empty store, the k-th call of a burst returns 0 if and only if k is at most 5, 10 or 2, the address is plain text and, for a signup, no flag is alive. |
| GateHistory.GarbledNeverPasses | src/redis_check_ip.c:11-43 | A call of an address that is not one plain word never returns 0, and leaves store and history as they were. |
| GateHistory.BlockedStaysBlocked | src/redis_check_ip.c:34-40 | After any run in which an address has used up its calls, every later request of it, however many and whatever else is served, returns 211021, as long as no two of its calls are 3610 s apart. |
| GateHistory.CallExtends | src/redis_increment.c:15-31 | INCR then EXPIRE on a counter in step with its history extend the burst by one call. |
| GateHistory.FlagBehindGate | src/http_server_main_loop_handler.c:94-118 | A request writes at most one signup flag, after its gate, and only in a signup whose flag text is that address. |
| WindowBound.WindowBounded | src/redis_check_ip.c:30-43 | In every run of one worker, under arbitrary failures, any window of 3610 s holds at most 5 signup, 10 login or 2 admin passes of an address whose EXPIRE found the counter. |
| PassCount.PromptCallsBounded | src/redis_check_ip.c:30-43 | With INCR and EXPIRE in one instant and arbitrary failures otherwise: at most 5 signup, 10 login or 2 admin gate calls of an address return 0 within any 3610 s of any run. |
| PassCount.CallsBounded | src/redis_check_ip.c:30-43 | With no assumption at all: at most one gate call more than that returns 0 within any 3610 s of any run. |
| PassCount.ExceededExactly | src/redis_increment.c:15-31 | More than the limit returns 0 in a window if and only if the window holds the full limit of passes whose EXPIRE found the counter and one whose EXPIRE did not. |
| PassCount.OneMoreHappens | src/redis_increment.c:24-31 | A run of four admin calls in which nothing fails and three return 0 within 3610 s. |
| PassCount.HistoryCountsCalls | src/redis_check_ip.c:3-44 | The passes in a run's history are its gate calls that returned 0, no more and no fewer. |
| PassCount.RunKeepsSpace | src/redis_increment.c:15-31 | In every run a pass whose EXPIRE came too late has no other pass in the 3610 s before it. |
| WindowBound.RunKeepsPasses | src/redis_increment.c:15-31 | Every run keeps: each such pass is covered for 3610 s by a counter that counts at least as far, and later passes in its window carry larger counts. |
| WindowBound.CounterStep | src/redis_increment.c:15-24 | INCR and EXPIRE keep this, whether they ran, failed, or ran and were reported failed. |
| WindowBound.ArmedExactly | src/redis_increment.c:15-31 | A pass is of the counted kind exactly when its counter is alive at the EXPIRE; always when INCR and EXPIRE are one instant. |
| WindowBound.LateExpireDisarms | src/redis_increment.c:24-31 | When the counter dies between the two, the call passes and no counter is left, for every type. |
| ManyWorkers.GateBounded | src/redis_check_ip.c:30-43 | With n workers, in any interleaving, under any failures and delays: at most n gate calls above the limit of 5, 10 or 2 pass for an address within any 3610 s while the shared index reads true, and at most three times as many whatever it reads. |
| ManyWorkers.DatabaseBounded | src/redis_increment.c:15-31 | For the counter of one database, whatever the index reads: at most the limit and n passes in any window. |
| ManyWorkers.AccountsBounded | src/redis_check_ip.c:11-28 | With n workers, in either form, in any interleaving and under any failures, while the shared index reads true: at most n signups of an address that name their flag by it set that flag within any 3600 s. |
| SignupRules.AccountsAnHourApart | src/http_server_main_loop_handler.c:94-118 | In either form: if a successful signup named its flag by its address, that address's next successful signup sets its flag at least 3600 s later, in any run of one worker and under any failures. |
| SignupRules.RunKeepsFlags | src/http_server_main_loop_handler.c:102-107 | In every run and either form the stored flag of an address is the last one its history shows, with 3600 s from then. |
| SignupRules.FlagAliveExactly | src/redis_check_ip.c:11-28 | After any run a flag is alive if and only if one was set under this text less than 3600 s ago. |
| SignupRules.FlagStep | src/http_server_main_loop_handler.c:94-118 | One request adds at most one flag, by a submitted signup that names the address and has passed its gate. |
| SignupRules.RunSpacesFlags | src/http_server_main_loop_handler.c:94-118 | With the flag named by the address, any two flags of a run are at least 3600 s apart, those of failed signups included. |
| SignupRules.FlagBlocksIffNamed | src/http_server_main_loop_handler.c:102 | After any run with a successful signup and no later one that names the address, the address's next signup gate call within the hour gets 111011 if and only if the signup named its flag by the address. |
| SignupRules.SuccessSetsFlag | src/http_server_main_loop_handler.c:102-107 | A signup that returned 0 has a plain address and a plain flag text, and has added exactly one flag write, under the text its form names and after its gate call. |
| SignupRules.PassMeansNoFlag | src/redis_check_ip.c:11-28 | A signup call that passes the gate comes at least 3600 s after every earlier flag of its address. |
| SignupRules.OtherFlagLeavesGone | src/http_server_main_loop_handler.c:102 | After any run with a successful signup that named its flag otherwise, and no later one that names the address, the address has no live flag. |
| SignupRules.SilenceReadmits | src/common.h:14-15 | After any run whose last 3610 s brought no gate call of an address and no signup that names it, the address's next gate call returns 0 if and only if the address is plain text. |
| SignupRules.RecordOutlivesRun | src/http_server_main_loop_handler.c:84-118 | With the guard on the record's key, no run of one worker changes a record that is alive at its end. |
| SignupRules.RecordOutlivesRequest | src/http_server_main_loop_handler.c:84-118 | The same for one request. |
| Races.OverwriteIsRace | src/http_server_main_loop_handler.c:84-118 | With the guard on the record's key and any number of workers, in any reachable state: a step replaces the content of a live record only if it is the HSET of a signup for that name whose own guard was followed, before this HSET, by another HSET for the name. |
| Races.RunKeepsWatch | src/http_server_main_loop_handler.c:84-118 | Behind it: between its guard and its HSET a worker finds a live record only if one was written since, over any moves. |
| RaceExample.RaceHappens | src/http_server_main_loop_handler.c:84-118 | With both places repaired, for any hash, clean name, passwords and plain address: a run of two workers from the empty store in which nothing fails and no time passes; both sign the name up from that address and return 0, and the record kept for the first to finish is replaced by the other's. |
| SignupRules.SignupVerdict | src/http_server_main_loop_handler.c:84-118 | A record check behind a valid session returns 211100 if and only if the guard asks for the record's key and the record is alive. Otherwise it returns 0 with a plain flag text, and the record holds the new data whatever stood there, and 211101 with a cut one, and no record of the name changes. SecondSignupExactly and TakenNameInRun say it of whole runs. |
| SignupRules.StrayRecordsNeverWritten | src/http_server_main_loop_handler.c:111-112 | No run of either form writes a record key of another type than login. |
| History.RequestFrame | src/http_server_main_loop_handler.c:60-112 | A request leaves every entry, and the history of every entry, outside its own short list as it was: its counter, its session, or its flag and record. |
| History.ServeFrame | src/http_server_main_loop.c:68-81 | The same for a turn of the serving loop. |
| History.RunFrame | src/http_server_main_loop.c:43-92 | A run leaves every entry, with its history, that none of its requests can change. |
| History.GateFrame | src/redis_check_ip.c:3-44 | The gate changes no entry but its own counter. |
| Outcomes.HandleConsistent | src/http_server_main_loop_handler.c:3-155 | The handler returns 0 or 1 exactly when it sent one 200 (0: empty body; 1: session); 211051 sent nothing; any other return sent one 422. |
| Outcomes.EveryOutcomeConsistent | src/http_server_main_loop_handler.c:3-155 | The same for every request finished in any interleaving. |
| Outcomes.RecordChangeIsReported | src/http_server_main_loop_handler.c:111-117 | A command that changes a user record commits its worker to return 0 or 211111. |
| Outcomes.RecordsChangeOnlyWhenReported | src/http_server_main_loop_handler.c:84-154 | A handler call that returns anything else leaves every user record and its history alone. |
| Daemon.CacheAgrees | src/redis.c:6-60 | After any sequence of connects, failures and dropped connections, a live connection's selected database is the cached index, and a connect for db that succeeds leaves db selected. |
| Daemon.Thread.constructor | src/redis.c:3-4 | A thread starts without a connection, with index -1. |
| Daemon.Thread.RedisConnectThread | src/redis.c:6-60 | Connect or reselect, branch by branch; success leaves the server in the named database. |
| Daemon.Thread.RedisCommand | src/redis_get_int.c:17-23 | The command takes effect in the database that the server has selected, not in the one the caller had in mind. |
| Daemon.Thread.GetInt | src/redis_get_int.c:8-70 | Runs in the named database; value and code as in Protocol; no EXISTS, INCR or EXPIRE is ever answered by a string; afterwards the connection stands in that database unless there was none or no answer came, and the index is kept. |
| Daemon.Thread.GetHgetString | src/redis_get_hget_string.c:6-57 | On 0 the caller's buffer holds exactly the stored text and a NUL; any other length is 125041. |
| Daemon.Thread.CopyText | src/redis_get_hget_string.c:51-53 | The buffer receives the text and its NUL. |
| Daemon.Thread.SetHset | src/redis_set_hset_key_value.c:29-121 | SET alone, or HSET and EXPIRE on the same connection, with every code. |
| Daemon.Thread.ExpireOnSameConnection | src/redis_set_hset_key_value.c:96-121 | EXPIRE without a connect still runs in the database of the HSET. |
| Daemon.Thread.Increment | src/redis_increment.c:4-32 | INCR then EXPIRE, each in the named database. |
| Daemon.Thread.CheckIp | src/redis_check_ip.c:3-44 | The gate with its two counting branches is the gate of Protocol. |
| Daemon.Thread.SessHandleNewRequest | src/sess_handle_new_request.c:4-32 | Stores the pair, reads the salt for a login, responds once; a failure responds nothing. |
| Daemon.Thread.CheckSession | src/http_server_main_loop_handler.c:59-82 | Session, cookie and their comparison in 33-byte buffers. |
| Daemon.Thread.SameText | src/http_server_main_loop_handler.c:75 | strncmp over the whole buffers finds equality exactly when all bytes agree. |
| Daemon.Thread.BufferHoldsCookie | src/http_server_main_loop_handler.c:67-75 | The two buffers agree exactly when the cookie value is the stored one. |
| Daemon.Thread.SignUp | src/http_server_main_loop_handler.c:100-118 | Flag, record, response, with every exit. |
| Daemon.Thread.LogIn | src/http_server_main_loop_handler.c:128-151 | Hash, salt, comparison, response, with every exit. |
| Daemon.Thread.CheckRecord | src/http_server_main_loop_handler.c:84-154 | The guard and the branch to signup or login. |
| Daemon.Thread.MainLoopHandler | src/http_server_main_loop_handler.c:3-155 | The whole handler, from gate to return, does to the world what Protocol.Handle says and sends the same responses. |
| Daemon.Thread.ServeOne | src/http_server_main_loop.c:67-91 | One turn: classify, refuse or handle. |
| Daemon.Thread.HttpServe | src/http_server_main_loop.c:43-92 | The loop over any requests, each of at most 1024 bytes, yields the world of Protocol.Run, on which the run theorems speak. |
| RedisStore.Dial | src/redis.c:6-60 | Success means up and cached at db; failure means no connection. |
| RedisStore.Issue | src/redis_get_int.c:15-28 | Whatever fails, the store changes by this command's effect or not at all; an informative reply is the true one and means the command ran. |
| RedisStore.Send | src/redis_set_hset_key_value.c:96-115 | The same without a connect. |
| Wire.CommandFaithful | src/redis_set_hset_key_value.c:11-27 | For validated names, hashes, salts and plain addresses every command text is shorter than 1024, free of percent signs, and splits at spaces into exactly the intended arguments; read by verb, key text and decimal lifetime these are the command that was meant. |
| Wire.TextDeterminesCommand | src/redis_get_int.c:10-18 | Two such commands with the same text are the same command. |
| Wire.KeyTextInjective | src/sess_handle_new_request.c:9 | Keys of different family, type, name, address or session salt have different texts. |
| Wire.NumberReads | src/send_response.c:58-64 | What is printed for a number is its decimal numeral, behind a sign if it is negative. |
| Wire.SplitExactly | src/redis_get_int.c:12-18 | For any words: splitting the joined text gives the words back if and only if none is empty or holds a space. |
| Wire.FlagCommandSplits | src/http_server_main_loop_handler.c:102 | For any printed text of at most 15 characters: the flag's command splits into the arguments of the SET, with the text less its trailing spaces in the key and 3600 as its lifetime, if and only if no other space is in it; otherwise into six words or more. |
| Wire.DecTextInjective | src/redis_set_hset_key_value.c:25 | Different lifetimes print differently. |
| Wire.BuildSetHset | src/redis_set_hset_key_value.c:11-27 | For any text the 1024-byte buffer ends up with the text cut to 1023 and, for a SET with a lifetime, the EX part cut to what is left. |
| Wire.BuiltText | src/redis_set_hset_key_value.c:11-27 | For the daemon's commands nothing is cut: the buffer holds the whole command. |
| Wire.FindSpace | src/redis_set_hset_key_value.c:75-81 | The first space after the prefix, or the end. |
| Wire.ExtractKey | src/redis_set_hset_key_value.c:70-91 | For any buffer whose text has at least six characters: the word after the prefix, or 135027 if no space follows it, or 135028 if it has 512 bytes or more. |
| Wire.CopyKey | src/redis_set_hset_key_value.c:90-91 | The key buffer holds exactly the word. |
| Wire.ExpireKeyIsHsetKey | src/redis_set_hset_key_value.c:70-97 | From the text of an HSET the extraction yields the key that HSET writes. |
| Wire.SetHsetTexts | src/redis_set_hset_key_value.c:11-97 | Both texts of the function: the command, and for HSET the EXPIRE of the same key; read back, they are these commands with these lifetimes. |
| Wire.IncrementTexts | src/redis_increment.c:5-24 | Both texts of the counter: INCR and EXPIRE of one key; read back, they are these commands with this lifetime. |
| SentCommands.EveryCommandFaithful | src/http_server_main_loop_handler.c:60-137 | In every interleaving of requests with plain texts the next command of any worker is one of these, so its text is short and unambiguous and reads as that command, and when it is answered the store has executed it. |
| SentCommands.HistoryIsReadable | src/redis_get_int.c:17-18 | Executed commands of a run have equal texts exactly when they are equal. |
| SentCommands.StepSends | src/http_server_main_loop_handler.c:3-155 | A step executes no other command than the announced one. |
| Responses.FramingExact | src/send_response.c:33-74 | For any status, cookies and body: the first blank line ends the head, its last line announces in decimal digits the body's length, and as many bytes follow if and only if the body is shorter than 3072 (section 6.2 of RFC 9112). |
| Responses.EveryResponseFramed | src/send_response.c:33-74 | Every response that any interleaving sends is below 4096 bytes: the status line 422 or 200, no caching, for a session its two cookies, the length in decimal digits, and as many bytes of body, which are a refusal's text. |
| Responses.PathRefusalFramed | src/http_server_main_loop.c:69-71 | So is the refusal of a request line. |
| Responses.ResponseFits | src/send_response_sess.c:8-26 | Every response of the daemon fits the response buffer and the body buffer, and no cookie breaks its line. |
| Responses.SendResponse | src/send_response.c:33-74 | The running offset stays below 4096 and ends as the length of the response text, which the buffer then holds. |
| Responses.Append | src/send_response.c:48-49 | One append moves the offset by the text's length and keeps what was there. |
| Responses.SendResponseSess | src/send_response_sess.c:8-26 | The cookie passes the 101-byte buffer uncut; the bytes are those of the session response. |
| ClientReads.BrowserReadsSession | src/send_response_sess.c:8-26 | From the bytes of a session response the browser reads back the stored cookie value under the cookie's name and exactly the JSON members the daemon meant. |
| ClientReads.BodyIsRead | src/send_response_sess.c:10-25 | Reading the rendered JSON body gives version, session and, at login, salt. |
| ClientReads.SessCookieIsRead | src/send_response_sess.c:9 | The rendered cookie text is read as name and value; its attributes are not part of the value. |
| CBuffer.Snprintf | src/send_response.c:38-43 | What fits is written with a NUL, what precedes it stays, the untruncated length is returned. |
| CBuffer.PutText | src/redis_set_hset_key_value.c:12 | The buffer holds the text, cut to what fits. |
| CBuffer.AddText | src/redis_set_hset_key_value.c:24-25 | What still fits is appended to the text in the buffer. |
| Cookies.ExtractionUndoesRendering | src/cookie_extract.c:3-60 | For any headers whose cookie lines are name=value pairs joined by "; " (section 4.2.1 of RFC 6265), any body and buffer size: the first value with exactly that name, 125005 if it does not fit, 125009 if absent. |
| Cookies.FoundExactly | src/cookie_extract.c:15-54 | For every buffer, name and size, character by character: v is found if and only if it fits and is the value of the first cookie of that name, in the first line before the first blank line that has one. |
| Cookies.MissingExactly | src/cookie_extract.c:4-60 | And exactly when each of the codes 125001, 125003 and 125005 is returned; 125009 is the only other. |
| Cookies.CookieExtract | src/cookie_extract.c:3-60 | For any request without NUL: the scan, line by line and pair by pair, computes the declarative lookup; the output buffer is written only on success. |
| Cookies.ScanList | src/cookie_extract.c:35-54 | The jumping search finds the value behind the first delimited match. |
| Cookies.JumpLosesNothing | src/cookie_extract.c:53 | No match begins inside a skipped name. |
| Cookies.NextLine | src/cookie_extract.c:28-56 | Yields the lines of the head one by one, as strtok does. |
| Cookies.CopyOut | src/cookie_extract.c:49-50 | Value and NUL land in the output buffer. |
| Cookies.ListUndoesRender | src/cookie_extract.c:35-54 | The lookup in a rendered list is the lookup in the pairs. |
| HttpText.BlankLineEndsHead | src/cookie_extract.c:15-19 | The first blank line of a rendered message ends its head; head and body come back. |
| HttpText.TokensOfHead | src/cookie_extract.c:28-56 | Splitting a head at line ends gives its lines. |
| PostPath.ClassifyMeaning | src/check_post_type_path.c:21-99 | For a POST line with at least four bytes from the path on: type i exactly when the last segment before the first "HTTP/" in any case, trailing spaces trimmed, begins with pattern i; -1410041 cannot occur. |
| PostPath.AcceptedExactly | src/check_post_type_path.c:10-100 | For every buffer, character by character: a type is accepted if and only if the buffer begins with POST, spaces and a slash with four bytes from there on, and the segment between the last slash and the spaces before the first mark begins with its name. |
| PostPath.RefusedExactly | src/check_post_type_path.c:12-80 | For every buffer: exactly when each of the refusals and the look behind the buffer occurs. |
| PostPath.FittingTypeIsUnique | src/check_post_type_path.c:83-96 | At most one pattern fits. |
| PostPath.ThreadState.LookForHttp | src/check_post_type_path.c:40-44 | The five comparisons, and whether one of them is behind the buffer. |
| PostPath.ThreadState.FindHttp | src/check_post_type_path.c:38-48 | The loop with its wrapping bound finds the first mark, or overreads exactly with fewer than four bytes left. |
| PostPath.ThreadState.CutSegment | src/check_post_type_path.c:55-78 | The two backward walks yield the last trimmed segment. |
| PostPath.ThreadState.MatchSegment | src/check_post_type_path.c:82-99 | The table walk sets type, type text and database index together, or nothing. |
| PostPath.ThreadState.CheckPostTypePath | src/check_post_type_path.c:10-100 | The scanner computes the declarative classification for any bytes, and looks at a byte behind the buffer if and only if a slash-led path leaves fewer than four. |
| PostPath.ClientLineClassified | src/check_post_type_path.c:10-100 | The request line a browser sends is classified as the type it names, for any directory without "HTTP/" in it. |
| HttpParser.ParseSession | src/http_parser.c:26-79 | A parsed request carries a clean lowercase name, and a submission a non-zero 64-hex hash and 32-hex salt. |
| HttpParser.ParsedExactly | src/http_parser.c:26-79 | For every body: it asks for a session, or submits one, of a name, a hash and a salt, if and only if its members are these, with an integer version, the name in letters of either case and no more than four members. |
| HttpParser.SessionRequest.Parse | src/http_parser.c:5-85 | The field-by-field parser returns 1 exactly on rejection; otherwise the fields are the parsed request, with both password and salt or neither. |
| Validators.ValidateUsername | src/http_utils.c:12-30 | The loop accepts exactly the names of 8 to 20 letters, digits, hyphens and underscores with a letter first and a letter or digit last. |
| Validators.ValidateHex | src/http_utils.c:33-83 | Exactly the texts of the length in 0-9 and a-f that are not all zeros. |
| Validators.LowercaseInPlace | src/http_parser.c:38-40 | The name is lowercased where it stands. |
| Validators.UsernameRulesAgree | signup_html/validators.js:2-6 | For every string: the server accepts its lowercase form exactly when both client expressions match that form. |
| Validators.FormatRegexMeaning | signup_html/validators.js:3 | What the first expression matches, from the semantics of regular expressions. |
| Validators.LengthRegexMeaning | signup_html/validators.js:4 | What the second expression matches. |
| Hashing.LoginExact | src/calc_hash_for_login.c:15-32 | Against a record of (name, password, salt), a browser's tag is accepted if and only if name, salts, session and password are the same, unless the compared inputs collide. |
| Hashing.HashInputInjective | src/calc_hash_for_login.c:15 | salt:name:rest determines its three parts. |
| Hashing.CalcHashForLogin | src/calc_hash_for_login.c:4-33 | Through the 256-character buffer, with the NUL stored at the index snprintf returns, the code computes the specified check; the index is in bounds for names of valid length. |
| Hashing.LoginInputFits | src/calc_hash_for_login.c:15 | For a name of valid length the text has at most 118 characters. |
| Hashing.SameUpTo | src/calc_hash_for_login.c:26 | strncmp over 64 characters against a text of any length. |
| Hashing.ComputeSignupHash2 | src/calc_hash_passwd_argon.c:46-83 | Both hex loops together leave the pipeline's tag in the result buffer. |
| Hashing.HexInto | src/calc_hash_passwd_argon.c:66-69 | The overlapping three-byte prints leave the hex text and a NUL. |
| Hashing.HexTextInjective | src/calc_hash_passwd_argon.c:65-80 | Different bytes give different hex texts. |
| Hashing.HexTextReads | src/calc_hash_passwd_argon.c:65-80 | The two digits of each byte in the text have its value. |
| Hashing.ArgonHexLoop | js/load_argon2.js:114-118 | The browser's first hex loop gives the same text as the daemon's. |
| Hashing.PaddedHexIsHexText | signup_html/utils.js:6-7 | So does its second, with padStart. |
| Hashing.BrowserHash | signup_html/calc_passHash.js:45-97 | Browser and daemon compute the same tag from the same primitives; where the browser's hash fails it yields none. |
| Client.JsonGetHexLen | signup_html/form_submit_session-manager.js:21-53 | The browser takes a member of a response if and only if its version is 1 and it is a lowercase hex token of the asked length. |
| Client.Page.CalcPassHash | signup_html/calc_passHash.js:2-42 | With the salt passed through the page's global variable, the body is the specified one, whose hash is written out from the two primitives, salts, name and password; a failing hash yields none. |
| Client.AskIsUnderstood | src/http_parser.c:47-52 | The browser's first body is read as a session request for that name. |
| Client.SubmissionIsUnderstood | src/http_parser.c:54-84 | Its second body is read as the submission it means. |
| Client.PostIsUnderstood | src/cookie_extract.c:3-60 | From the bytes of a browser's request the daemon reads back type, blank line and cookie. |

## Left out

- Sockets, accept, read, write, signals and thread creation (`src/server.c`, `src/main.c`): input and output. A request is what one read yields, at most 1024 bytes (`src/common.h`), without NUL; what the client sends beyond that is not read by the daemon, nor by the model.
- Argon2, SHA-256, MD5, random generation, hiredis and jansson: library code. The hash is any function with the stated sizes, session values are any 32-character tokens, the client library is a split at spaces, and the JSON body of a request is a map of members. ClientReads reads the JSON that the daemon writes; JSON in general (escapes, nesting, other numbers) is not modelled.
- `src/http_get_client_ip.c`: the address is an opaque text. Addresses and printed flag texts of more than 15 characters or with a percent sign: a percent sign makes the client library format with arguments that are not there. The model answers such a command with an error. An address that ends in spaces counts as not plain; the gate refuses it either way.
- The handler's exits 211000 and 211010 for null arguments, and those of its helpers: no caller passes null.
- Verdicts.AnswerExactly: one worker, and exchanges that are answered; Faults.FaultCloses has the others. For a flag text with a percent sign or of more than 15 characters its 211101 rests on the model's error.
- Daemon.Thread.GetInt: the conversion of string replies to numbers (`src/redis_get_int.c:40-63`); a string reply counts as 129036, and the contract shows that the daemon's commands never get one.
- Daemon.Thread.ServeOne: after an overread the daemon's course depends on bytes behind the buffer; the turn ends without an answer.
- Interleaving.SoloIsHandle: the process-wide counter index is modelled, at each use, as any of the three databases; the shared cookie buffer `buf1` is not, so what two workers that render a session cookie at once send is not covered.
- Interleaving.StepDescends: a SET counts as one step; HSET and its EXPIRE are two.
- GateHistory.KthCallPasses: for one worker; with several, commands of two gate calls for one address can alternate. ManyWorkers has the bounds for n.
- WindowBound.WindowBounded: counts passes whose EXPIRE found the counter; PassCount counts every gate call that returned 0. For one worker; ManyWorkers.GateBounded is for n.
- PassCount.CallsBounded: for one worker; ManyWorkers.GateBounded is for n.
- ManyWorkers.GateBounded: an upper bound; that it is attained is shown for one worker only (`PassCount.OneMoreHappens`).
- ManyWorkers.AccountsBounded: with the shared index reading true; otherwise a flag can be set in another type's database.
- SignupRules.RecordOutlivesRun: for one worker; Races and RaceExample say what becomes of it with several.
- SignupRules.AccountsAnHourApart: for one worker; two can pass the flag check of one address before either sets the flag, and ManyWorkers.AccountsBounded bounds how many do.
- Cookies.CookieExtract: the mutable copy of the head and a NUL byte in a request are not modelled; the lines are read from the text itself.
- Wire.ExtractKey: a command text shorter than its prefix, which the daemon never builds; the C code would then look behind the text.
- Hashing.CalcHashForLogin: names longer than 20 characters, which the parser refuses.
- Daemon.Thread.HttpServe: failures of accept and read.
- Responses.SendResponse: a response that does not fit the 4096-byte buffer; Responses.ResponseFits shows that the daemon has none.
- Responses.Append: a text that does not fit the rest of the buffer; the same lemma shows that none occurs.
- Client.Page.CalcPassHash: without a salt the page hashes the text built from null; that this hash fails is taken for granted.
- Hashing.LoginExact: absence of collisions is assumed for the two compared pairs of inputs only; assumed for all inputs it would contradict the fixed length of the tags.
- The store's keys are values of a datatype; their texts and the injectivity of those texts are in `Wire`. Eviction, persistence and other users of the store are not modelled.
- `src/redis_store.c`, `src/string_check_a2f_0to9.c`, `signup_html/form_submit_utils.js`, `signup_html/form_submit_validation.js`: unused or overridden.
- Password strength rules, password-field editing, languages and form wiring in `signup_html`: user interface.
- `admin_html`, `js/argon2.js`, the loaders and demo pages: other endpoints, generated or vendored code.
- Debug printing, the digest of the executable (its cookie is any short text without line ends), memory release.
