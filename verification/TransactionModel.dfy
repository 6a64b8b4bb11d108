/** One transaction of `SQLEngine.ts`: its registry entry, its reserved client, and every call working on it.

    A call is cut at its awaits. What awaits an answer from the database is a `Wire` in `calls`; the answer says
    whether the statement succeeded and, when it did not, whether the database had applied it before the
    reply was lost. `db` is the database's own savepoint stack, which the engine cannot see. */
module TransactionModel {

  type Call = nat

  datatype Status = ACTIVE | COMMITTING | COMMITTED | ROLLING_BACK | ROLLBACK | TIMEOUT

  datatype Wire =
    | Begin
    | Callback                    // transaction(fn): fn is running
    | Statement                   // execute
    | Undo(savepoint: nat)        // execute: ROLLBACK TO SAVEPOINT after a failure
    | Abort                       // execute: ROLLBACK after a failure
    | Open(savepoint: nat)        // createSavepoint
    | Close(savepoint: nat)       // releaseSavepoint
    | Rewind(savepoint: nat)      // rollbackToSavepoint
    | Commit
    | Rollback
    | TimeoutRollback

  datatype Custody = Released | Destroyed
  datatype Result = Pending | Resolved | Rejected

  datatype Tx = Tx(
    autoRollback: bool,
    // the record, and whether the registry still has it
    registered: bool, state: Status, timer: bool, savepoints: seq<nat>, spCounter: nat, busy: bool,
    // the surroundings
    calls: map<Call, Wire>, nextCall: Call,
    recorded: bool,               // the record was created
    given: seq<Custody>,          // how the client was given back
    result: Result,               // of transaction(fn), which is call 0
    threw: bool,                  // fn threw
    commitBy: set<Call>, acked: bool,  // who sent COMMIT; whether the database confirmed it
    db: seq<nat>)

  /** `beginTransaction` has its client and awaits BEGIN. */
  function Start(autoRollback: bool): Tx {
    Tx(autoRollback, false, ACTIVE, false, [], 0, false, map[0 := Begin], 1, false, [], Pending, false, {}, false, [])
  }

  predicate Live(s: Tx) {
    s.registered && s.state == ACTIVE
  }

  // ----- the database -----

  function IndexOf(stack: seq<nat>, n: nat): (i: int)
    ensures -1 <= i < |stack|
    ensures i >= 0 ==> stack[i] == n
    ensures i == -1 <==> n !in stack
  {
    if stack == [] then -1
    else if stack[|stack| - 1] == n then |stack| - 1
    else IndexOf(stack[..|stack| - 1], n)
  }

  /** Drops `n` and everything above it, if `n` is there. */
  function Below(stack: seq<nat>, n: nat): seq<nat> {
    var i := IndexOf(stack, n);
    if i < 0 then stack else stack[..i]
  }

  /** Drops everything above `n`, if `n` is there. */
  function UpTo(stack: seq<nat>, n: nat): seq<nat> {
    var i := IndexOf(stack, n);
    if i < 0 then stack else stack[..i + 1]
  }

  /** `wiped`: the database rolled the whole transaction back on its own, as MariaDB does on a deadlock. */
  datatype Reply = Done | Failed(applied: bool, wiped: bool)

  predicate Applied(r: Reply) {
    r == Done || r.applied
  }

  function Wiped(db: seq<nat>, r: Reply): seq<nat> {
    if r.Failed? && r.wiped then [] else db
  }

  // ----- pieces -----

  function Finish(s: Tx, c: Call): Tx {
    s.(calls := s.calls - {c})
  }

  /** The end of a statement: the connection's turn is given up. */
  function EndTurn(s: Tx, c: Call): Tx {
    Finish(s, c).(busy := false)
  }

  function Launch(s: Tx, w: Wire): Tx {
    s.(calls := s.calls[s.nextCall := w], nextCall := s.nextCall + 1)
  }

  /** `__releaseTransactionClient`. */
  function GiveBack(s: Tx, destroy: bool): (r': Tx)
    ensures r'.calls == s.calls && r'.commitBy == s.commitBy
  {
    if !s.registered then s
    else s.(registered := false, given := s.given + [if destroy then Destroyed else Released])
  }

  /** `rollbackTransaction` called inside the error path of the statement `c`. */
  function AbortFrom(s: Tx, c: Call): (r': Tx)
    ensures r'.autoRollback == s.autoRollback && r'.savepoints == s.savepoints && r'.spCounter == s.spCounter && r'.db == s.db
    ensures !Live(r') && (r'.calls == s.calls - {c} || r'.calls == s.calls[c := Abort])
  {
    if Live(s) then s.(state := ROLLING_BACK, timer := false, calls := s.calls[c := Abort]) else EndTurn(s, c)
  }

  // ----- begin and the callback form -----

  function Begun(s: Tx, ok: bool, timed: bool, callback: bool): Tx
    requires 0 in s.calls
  {
    if !ok then Finish(s, 0).(given := s.given + [Released], result := if callback then Rejected else s.result)
    else
      var s' := s.(registered := true, recorded := true, state := ACTIVE, timer := timed);
      if callback then s'.(calls := s.calls[0 := Callback]) else Finish(s', 0)
  }

  function CallbackEnded(s: Tx, threw: bool): (r': Tx)
    ensures r'.calls == if !Live(s) then s.calls - {0} else s.calls[0 := if threw then Rollback else Commit]
    ensures r'.commitBy == if !threw && Live(s) then s.commitBy + {0} else s.commitBy
  {
    if threw then
      if Live(s) then s.(threw := true, state := ROLLING_BACK, timer := false, calls := s.calls[0 := Rollback])
      else Finish(s, 0).(threw := true, result := Rejected)
    else if !Live(s) then Finish(s, 0).(result := Rejected)
    else s.(state := COMMITTING, timer := false, calls := s.calls[0 := Commit], commitBy := s.commitBy + {0})
  }

  // ----- execute -----

  function Execute(s: Tx): Tx {
    if !Live(s) || s.busy then s else Launch(s.(busy := true), Statement)
  }

  function Executed(s: Tx, c: Call, r: Reply): Tx {
    if r == Done then EndTurn(s, c)
    else
      var s' := s.(db := Wiped(s.db, r));
      if !s.autoRollback then EndTurn(s', c)
      else if Live(s) && s.savepoints != [] then s'.(calls := s.calls[c := Undo(s.savepoints[|s.savepoints| - 1])])
      else AbortFrom(s', c)
  }

  function Undone(s: Tx, c: Call, r: Reply): Tx
    requires c in s.calls && s.calls[c].Undo?
  {
    var s' := s.(db := Wiped(if Applied(r) then UpTo(s.db, s.calls[c].savepoint) else s.db, r));
    if r == Done then EndTurn(s', c) else AbortFrom(s', c)
  }

  function Aborted(s: Tx, c: Call, ok: bool): (r': Tx)
    ensures r'.calls == s.calls - {c}
  {
    EndTurn(GiveBack(s.(state := if ok then ROLLBACK else s.state, db := []), !ok), c)
  }

  // ----- savepoints -----

  function CreateSavepoint(s: Tx): Tx {
    if !Live(s) then s
    else
      var s' := s.(spCounter := s.spCounter + 1);
      if s.busy then s' else Launch(s'.(busy := true), Open(s.spCounter + 1))
  }

  function SavepointCreated(s: Tx, c: Call, r: Reply): (r': Tx)
    requires c in s.calls && s.calls[c].Open?
    ensures r'.calls == s.calls - {c}
  {
    var n := s.calls[c].savepoint;
    var s' := EndTurn(s, c).(db := Wiped(if Applied(r) then s.db + [n] else s.db, r));
    if r == Done then s'.(savepoints := s.savepoints + [n]) else s'
  }

  function ReleaseSavepoint(s: Tx, n: nat): Tx {
    if !Live(s) then s
    else if s.busy then s.(savepoints := Below(s.savepoints, n))
    else Launch(s.(busy := true), Close(n))
  }

  function SavepointReleased(s: Tx, c: Call, r: Reply): (r': Tx)
    requires c in s.calls && s.calls[c].Close?
    ensures r'.calls == s.calls - {c}
  {
    var n := s.calls[c].savepoint;
    EndTurn(s, c).(db := Wiped(if Applied(r) then Below(s.db, n) else s.db, r), savepoints := Below(s.savepoints, n))
  }

  function RollbackToSavepoint(s: Tx, n: nat): Tx {
    if !Live(s) then s
    else if s.busy then s.(savepoints := UpTo(s.savepoints, n))
    else Launch(s.(busy := true), Rewind(n))
  }

  function RolledBackTo(s: Tx, c: Call, r: Reply): (r': Tx)
    requires c in s.calls && s.calls[c].Rewind?
    ensures r'.calls == s.calls - {c}
  {
    var n := s.calls[c].savepoint;
    EndTurn(s, c).(db := Wiped(if Applied(r) then UpTo(s.db, n) else s.db, r), savepoints := UpTo(s.savepoints, n))
  }

  // ----- commit, rollback, timeout -----

  function CommitStart(s: Tx): Tx {
    if !Live(s) then s
    else Launch(s.(state := COMMITTING, timer := false, commitBy := s.commitBy + {s.nextCall}), Commit)
  }

  function CommitEnded(s: Tx, c: Call, ok: bool): (r': Tx)
    ensures r'.calls == s.calls - {c} && r'.commitBy == s.commitBy
  {
    GiveBack(Finish(s, c).(state := if ok then COMMITTED else s.state, db := [], acked := s.acked || ok,
                           result := if c == 0 then (if ok then Resolved else Rejected) else s.result), false)
  }

  function RollbackStart(s: Tx): Tx {
    if !Live(s) then s else Launch(s.(state := ROLLING_BACK, timer := false), Rollback)
  }

  function RollbackEnded(s: Tx, c: Call, ok: bool): (r': Tx)
    ensures r'.calls == s.calls - {c} && r'.commitBy == s.commitBy
  {
    GiveBack(Finish(s, c).(state := if ok then ROLLBACK else s.state, db := [],
                           result := if c == 0 then Rejected else s.result), !ok)
  }

  function TimeoutFires(s: Tx): Tx {
    if !Live(s) then s.(timer := false)
    else if s.busy then GiveBack(s.(timer := false, state := TIMEOUT), true)
    else Launch(s.(timer := false, state := TIMEOUT), TimeoutRollback)
  }

  function TimeoutEnded(s: Tx, c: Call, ok: bool): (r': Tx)
    ensures r'.calls == s.calls - {c}
  {
    GiveBack(Finish(s, c).(db := []), !ok)
  }

  // ----- runs -----

  datatype Event =
    | EBegun(ok: bool, timed: bool, callback: bool)
    | ECallbackEnded(threw: bool)
    | EExecute
    | EExecuted(c: Call, r: Reply)
    | EUndone(c: Call, r: Reply)
    | EAborted(c: Call, ok: bool)
    | ECreateSavepoint
    | ESavepointCreated(c: Call, r: Reply)
    | EReleaseSavepoint(n: nat)
    | ESavepointReleased(c: Call, r: Reply)
    | ERollbackTo(n: nat)
    | ERolledBackTo(c: Call, r: Reply)
    | ECommit
    | ECommitEnded(c: Call, ok: bool)
    | ERollback
    | ERollbackEnded(c: Call, ok: bool)
    | ETimeout
    | ETimeoutEnded(c: Call, ok: bool)

  predicate Awaits(s: Tx, c: Call, w: Wire) {
    c in s.calls && s.calls[c] == w
  }

  /** Answers come to what is on the wire; the database confirms an operation on a savepoint only if it has it. */
  predicate Enabled(s: Tx, e: Event) {
    match e
    case EBegun(_, _, _) => Awaits(s, 0, Begin)
    case ECallbackEnded(_) => Awaits(s, 0, Callback)
    case EExecuted(c, _) => Awaits(s, c, Statement)
    case EUndone(c, r) => c in s.calls && s.calls[c].Undo? && (r == Done ==> s.calls[c].savepoint in s.db)
    case EAborted(c, _) => Awaits(s, c, Abort)
    case ESavepointCreated(c, _) => c in s.calls && s.calls[c].Open?
    case ESavepointReleased(c, r) => c in s.calls && s.calls[c].Close? && (r == Done ==> s.calls[c].savepoint in s.db)
    case ERolledBackTo(c, r) => c in s.calls && s.calls[c].Rewind? && (r == Done ==> s.calls[c].savepoint in s.db)
    case ECommitEnded(c, _) => Awaits(s, c, Commit)
    case ERollbackEnded(c, _) => Awaits(s, c, Rollback)
    case ETimeout => s.timer
    case ETimeoutEnded(c, _) => Awaits(s, c, TimeoutRollback)
    case _ => true
  }

  function Step(s: Tx, e: Event): Tx
    requires Enabled(s, e)
  {
    match e
    case EBegun(ok, timed, callback) => Begun(s, ok, timed, callback)
    case ECallbackEnded(threw) => CallbackEnded(s, threw)
    case EExecute => Execute(s)
    case EExecuted(c, r) => Executed(s, c, r)
    case EUndone(c, r) => Undone(s, c, r)
    case EAborted(c, ok) => Aborted(s, c, ok)
    case ECreateSavepoint => CreateSavepoint(s)
    case ESavepointCreated(c, r) => SavepointCreated(s, c, r)
    case EReleaseSavepoint(n) => ReleaseSavepoint(s, n)
    case ESavepointReleased(c, r) => SavepointReleased(s, c, r)
    case ERollbackTo(n) => RollbackToSavepoint(s, n)
    case ERolledBackTo(c, r) => RolledBackTo(s, c, r)
    case ECommit => CommitStart(s)
    case ECommitEnded(c, ok) => CommitEnded(s, c, ok)
    case ERollback => RollbackStart(s)
    case ERollbackEnded(c, ok) => RollbackEnded(s, c, ok)
    case ETimeout => TimeoutFires(s)
    case ETimeoutEnded(c, ok) => TimeoutEnded(s, c, ok)
  }

  predicate CanRun(s: Tx, es: seq<Event>)
    decreases |es|
  {
    es == [] || (Enabled(s, es[0]) && CanRun(Step(s, es[0]), es[1..]))
  }

  function Run(s: Tx, es: seq<Event>): Tx
    requires CanRun(s, es)
    decreases |es|
  {
    if es == [] then s else Run(Step(s, es[0]), es[1..])
  }
}
