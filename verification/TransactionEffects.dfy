/** What each event does to a transaction: what is sent, what the database's answer leads to, and in which form the client is
    given back. Nothing but what is said changes. */
module TransactionEffects {
  import opened TransactionModel
  import opened TransactionCustody

  /** The registry has the record, and nobody is ending it. */
  predicate Open(s: Tx) {
    s.registered && s.state == ACTIVE
  }

  /** The call `c` is over, and with it its turn on the connection. */
  function Over(s: Tx, c: Call): (s': Tx)
    ensures s'.given == s.given && s'.result == s.result && s'.registered == s.registered && s'.state == s.state
  {
    s.(calls := s.calls - {c}, busy := false)
  }

  /** A new call has sent `w`. */
  function Sent(s: Tx, w: Wire): (s': Tx)
    ensures s'.given == s.given && s'.result == s.result && s'.registered == s.registered && s'.state == s.state
  {
    s.(calls := s.calls[s.nextCall := w], nextCall := s.nextCall + 1)
  }

  /** The record is out of the registry, and the client given back in this form. */
  function Parted(s: Tx, how: Custody): (s': Tx)
    ensures s'.given == s.given + [how] && !s'.registered && s'.result == s.result
  {
    s.(registered := false, given := s.given + [how])
  }

  /** What the database is left with, whether or not it confirmed: `done` if it applied the statement, nothing if it rolled
      back on its own. */
  function Left(db: seq<nat>, done: seq<nat>, r: Reply): seq<nat> {
    if r == Done then done else if r.wiped then [] else if r.applied then done else db
  }

  lemma EndTurnIsOver(s: Tx, c: Call)
    ensures EndTurn(s, c) == Over(s, c)
  {
  }

  lemma GivenBackIsParted(s: Tx, destroy: bool)
    requires s.registered
    ensures GiveBack(s, destroy) == Parted(s, if destroy then Destroyed else Released)
  {
  }

  lemma DatabaseIsLeft(db: seq<nat>, done: seq<nat>, r: Reply)
    ensures Wiped(if Applied(r) then done else db, r) == Left(db, done, r)
  {
  }

  // ----- cutting a stack -----

  /** `n` is cut off with all above it, at its last occurrence; or only what is above it. */
  lemma CutsAreAtTheLast(xs: seq<nat>, n: nat)
    ensures n !in xs ==> Below(xs, n) == xs && UpTo(xs, n) == xs
    ensures n in xs ==> exists i: nat :: i < |xs| && xs[i] == n && n !in xs[i + 1..] && Below(xs, n) == xs[..i] && UpTo(xs, n) == xs[..i + 1]
  {
    if n in xs { IndexIsLast(xs, n); }
  }

  lemma {:induction false} IndexIsLast(xs: seq<nat>, n: nat)
    requires n in xs
    ensures var i := IndexOf(xs, n); 0 <= i < |xs| && xs[i] == n && n !in xs[i + 1..]
  {
    if xs[|xs| - 1] != n {
      var front := xs[..|xs| - 1];
      IndexIsLast(front, n);
      var i := IndexOf(front, n);
      assert xs[i + 1..] == front[i + 1..] + [xs[|xs| - 1]];
    }
  }

  // ----- begin, and the callback -----

  /** A confirmed BEGIN registers an ACTIVE record, with its timeout set iff one was asked for; a failed one gives the client
      back to the pool and rejects `transaction(fn)`. */
  lemma BeginRegistersOrGivesBack(s: Tx, ok: bool, timed: bool, callback: bool)
    requires Enabled(s, EBegun(ok, timed, callback))
    ensures Step(s, EBegun(ok, timed, callback)) ==
      if ok then s.(registered := true, recorded := true, state := ACTIVE, timer := timed,
                    calls := if callback then s.calls[0 := Callback] else s.calls - {0})
      else s.(calls := s.calls - {0}, given := s.given + [Released], result := if callback then Rejected else s.result)
  {
  }

  /** When `fn` ends in an open transaction, its error sends ROLLBACK and its success sends COMMIT, from the same call; in one
      that is over `transaction(fn)` is rejected at once. */
  lemma CallbackCommitsOrRollsBack(s: Tx, threw: bool)
    requires Enabled(s, ECallbackEnded(threw))
    ensures Step(s, ECallbackEnded(threw)) ==
      if !Open(s) then s.(calls := s.calls - {0}, result := Rejected, threw := s.threw || threw)
      else if threw then s.(calls := s.calls[0 := Rollback], state := ROLLING_BACK, timer := false, threw := true)
      else s.(calls := s.calls[0 := Commit], state := COMMITTING, timer := false, commitBy := s.commitBy + {0})
  {
    if !Open(s) {
      if threw { } else { }
    } else {
      if threw { } else { }
    }
  }

  // ----- statements -----

  /** A statement is sent iff the transaction is open and its connection free. */
  lemma StatementsTakeTurns(s: Tx)
    ensures Step(s, EExecute) == if Open(s) && !s.busy then Sent(s.(busy := true), Statement) else s
  {
  }

  /** A statement that succeeded is over. One that failed is over too without automatic rollback, or when the transaction is;
      otherwise it is undone back to the top savepoint, or the transaction rolled back if there is none. */
  lemma FailureIsUndone(s: Tx, c: Call, r: Reply)
    requires Enabled(s, EExecuted(c, r))
    ensures Step(s, EExecuted(c, r)) ==
      if r == Done then Over(s, c)
      else
        var failed := s.(db := if r.wiped then [] else s.db);
        if !s.autoRollback || !Open(s) then Over(failed, c)
        else if s.savepoints != [] then failed.(calls := s.calls[c := Undo(s.savepoints[|s.savepoints| - 1])])
        else failed.(calls := s.calls[c := Abort], state := ROLLING_BACK, timer := false)
  {
    hide Step, Over, Executed;
    StepIsExecuted(s, c, r);
    if r == Done {
      SuccessIsOver(s, c);
      EndTurnIsOver(s, c);
    } else {
      FailureGoesOn(s, c, r);
    }
    hide EndTurn;
  }

  lemma StepIsExecuted(s: Tx, c: Call, r: Reply)
    requires Enabled(s, EExecuted(c, r))
    ensures Step(s, EExecuted(c, r)) == Executed(s, c, r)
  {
    hide Executed;
  }

  lemma FailureGoesOn(s: Tx, c: Call, r: Reply)
    requires r != Done
    ensures var failed := s.(db := if r.wiped then [] else s.db);
      Executed(s, c, r) ==
        if !s.autoRollback || !Open(s) then Over(failed, c)
        else if s.savepoints != [] then failed.(calls := s.calls[c := Undo(s.savepoints[|s.savepoints| - 1])])
        else failed.(calls := s.calls[c := Abort], state := ROLLING_BACK, timer := false)
  {
    hide EndTurn, Over, AbortFrom, Wiped, Executed;
    var failed := s.(db := if r.wiped then [] else s.db);
    FailureLeaves(s.db, r);
    EndTurnIsOver(failed, c);
    AbortsIfOpen(failed, c);
    FailureBranches(s, failed, c, r);
  }

  lemma SuccessIsOver(s: Tx, c: Call)
    ensures Executed(s, c, Done) == EndTurn(s, c)
  {
    hide EndTurn;
  }

  lemma FailureBranches(s: Tx, failed: Tx, c: Call, r: Reply)
    requires r != Done && failed == s.(db := Wiped(s.db, r))
    ensures Executed(s, c, r) ==
      if !s.autoRollback then EndTurn(failed, c)
      else if Open(s) && s.savepoints != [] then failed.(calls := s.calls[c := Undo(s.savepoints[|s.savepoints| - 1])])
      else AbortFrom(failed, c)
  {
    hide EndTurn, AbortFrom, Wiped;
  }

  lemma FailureLeaves(db: seq<nat>, r: Reply)
    requires r != Done
    ensures Wiped(db, r) == if r.wiped then [] else db
  {
  }

  lemma AbortsIfOpen(s: Tx, c: Call)
    ensures AbortFrom(s, c) ==
      if Open(s) then s.(calls := s.calls[c := Abort], state := ROLLING_BACK, timer := false) else Over(s, c)
  {
  }

  /** An undo that fails turns into a rollback of the whole transaction, if that is still open. */
  lemma FailedUndoRollsBack(s: Tx, c: Call, r: Reply)
    requires Enabled(s, EUndone(c, r))
    ensures var undone := s.(db := Left(s.db, UpTo(s.db, s.calls[c].savepoint), r));
      Step(s, EUndone(c, r)) ==
        if r == Done || !Open(s) then Over(undone, c)
        else undone.(calls := s.calls[c := Abort], state := ROLLING_BACK, timer := false)
  {
    hide UpTo, EndTurn, Over, AbortFrom, Left, Wiped, Applied;
    var undone := s.(db := Left(s.db, UpTo(s.db, s.calls[c].savepoint), r));
    DatabaseIsLeft(s.db, UpTo(s.db, s.calls[c].savepoint), r);
    EndTurnIsOver(undone, c);
    AbortsIfOpen(undone, c);
  }

  // ----- savepoints -----

  /** Each savepoint operation is sent iff the transaction is open and its connection free. Refused for the connection alone, it
      has still used up a name, or cut the engine's stack. */
  lemma SavepointsTakeTurns(s: Tx, n: nat)
    ensures Step(s, ECreateSavepoint) ==
      if !Open(s) then s
      else if s.busy then s.(spCounter := s.spCounter + 1)
      else Sent(s.(spCounter := s.spCounter + 1, busy := true), Wire.Open(s.spCounter + 1))
    ensures Step(s, EReleaseSavepoint(n)) ==
      if !Open(s) then s
      else if s.busy then s.(savepoints := Below(s.savepoints, n))
      else Sent(s.(busy := true), Close(n))
    ensures Step(s, ERollbackTo(n)) ==
      if !Open(s) then s
      else if s.busy then s.(savepoints := UpTo(s.savepoints, n))
      else Sent(s.(busy := true), Rewind(n))
  {
    hide Below, UpTo;
    if !Open(s) { } else if s.busy { } else { }
  }

  /** A new savepoint is on the engine's stack iff the database confirmed it. */
  lemma ConfirmedSavepointIsPushed(s: Tx, c: Call, r: Reply)
    requires Enabled(s, ESavepointCreated(c, r))
    ensures var n := s.calls[c].savepoint;
      Step(s, ESavepointCreated(c, r)) ==
        Over(s, c).(db := Left(s.db, s.db + [n], r), savepoints := if r == Done then s.savepoints + [n] else s.savepoints)
  {
    hide EndTurn, Left, Wiped, Applied;
    var n := s.calls[c].savepoint;
    EndTurnIsOver(s, c);
    DatabaseIsLeft(s.db, s.db + [n], r);
    assert Over(s, c).savepoints == s.savepoints;
    hide Over;
  }

  /** A released savepoint is off the engine's stack with all above it, and one rolled back to is its top, whatever came
      back. */
  lemma ReleasedWhateverCameBack(s: Tx, c: Call, r: Reply)
    requires Enabled(s, ESavepointReleased(c, r))
    ensures var n := s.calls[c].savepoint;
      Step(s, ESavepointReleased(c, r)) == Over(s, c).(db := Left(s.db, Below(s.db, n), r), savepoints := Below(s.savepoints, n))
  {
    hide Below, EndTurn, Left, Wiped, Applied;
    EndTurnIsOver(s, c);
    DatabaseIsLeft(s.db, Below(s.db, s.calls[c].savepoint), r);
    hide Over;
  }

  lemma RewoundWhateverCameBack(s: Tx, c: Call, r: Reply)
    requires Enabled(s, ERolledBackTo(c, r))
    ensures var n := s.calls[c].savepoint;
      Step(s, ERolledBackTo(c, r)) == Over(s, c).(db := Left(s.db, UpTo(s.db, n), r), savepoints := UpTo(s.savepoints, n))
  {
    hide UpTo, EndTurn, Left, Wiped, Applied;
    EndTurnIsOver(s, c);
    DatabaseIsLeft(s.db, UpTo(s.db, s.calls[c].savepoint), r);
    hide Over;
  }

  // ----- the end -----

  /** COMMIT, ROLLBACK and the timeout's ROLLBACK are sent once each at most, and only from an open transaction, which is open
      no more from then on; the timeout sends none while a statement is in flight, but gives the client up. */
  lemma EndingsAreSentOnce(s: Tx)
    ensures Step(s, ECommit) ==
      if Open(s) then Sent(s.(state := COMMITTING, timer := false, commitBy := s.commitBy + {s.nextCall}), Commit) else s
    ensures Step(s, ERollback) == if Open(s) then Sent(s.(state := ROLLING_BACK, timer := false), Rollback) else s
  {
    if Open(s) { } else { }
  }

  lemma TimeoutSendsOrGivesUp(s: Tx)
    requires Enabled(s, ETimeout)
    ensures Step(s, ETimeout) ==
      if !Open(s) then s.(timer := false)
      else if s.busy then Parted(s.(state := TIMEOUT, timer := false), Destroyed)
      else Sent(s.(state := TIMEOUT, timer := false), TimeoutRollback)
  {
    if !Open(s) { } else if s.busy { } else { }
  }

  lemma EnderIsRegistered(s: Tx, c: Call)
    requires Reached(s) && s.recorded && c in s.calls && Ends(s.calls[c])
    ensures s.registered
  {
    ReachedKeeps(s);
    TurnCounts(s.calls, c);
    hide Turns, Enders, Reached;
  }

  /** The answer to a COMMIT gives the client back to the pool, confirmed or not; `transaction(fn)` resolves iff it was its own
      and confirmed. */
  lemma CommitPoolsTheClient(s: Tx, c: Call, ok: bool)
    requires Reached(s) && s.recorded && Enabled(s, ECommitEnded(c, ok))
    ensures Step(s, ECommitEnded(c, ok)) ==
      Parted(s.(calls := s.calls - {c}, db := [], state := if ok then COMMITTED else s.state, acked := s.acked || ok,
                result := if c != 0 then s.result else if ok then Resolved else Rejected), Released)
  {
    hide Reached;
    EnderIsRegistered(s, c);
    if ok { } else { }
  }

  /** The answer to a ROLLBACK, whoever sent it, gives the client back to the pool iff it was confirmed; if not, the client goes
      to be destroyed. */
  lemma RollbackPoolsOnlyWhenConfirmed(s: Tx, c: Call, ok: bool)
    requires Reached(s) && s.recorded && Enabled(s, ERollbackEnded(c, ok))
    ensures Step(s, ERollbackEnded(c, ok)) ==
      Parted(s.(calls := s.calls - {c}, db := [], state := if ok then ROLLBACK else s.state,
                result := if c == 0 then Rejected else s.result), if ok then Released else Destroyed)
  {
    hide Reached, GiveBack, Parted;
    EnderIsRegistered(s, c);
    GivenBackIsParted(s.(calls := s.calls - {c}, db := [], state := if ok then ROLLBACK else s.state,
                         result := if c == 0 then Rejected else s.result), !ok);
  }

  /** The same of the ROLLBACK a failed statement sent. */
  lemma AbortPoolsOnlyWhenConfirmed(s: Tx, c: Call, ok: bool)
    requires Reached(s) && s.recorded && Enabled(s, EAborted(c, ok))
    ensures Step(s, EAborted(c, ok)) ==
      Over(Parted(s.(db := [], state := if ok then ROLLBACK else s.state), if ok then Released else Destroyed), c)
  {
    hide Reached, GiveBack, Parted, EndTurn, Over;
    EnderIsRegistered(s, c);
    var ended := s.(db := [], state := if ok then ROLLBACK else s.state);
    GivenBackIsParted(ended, !ok);
    EndTurnIsOver(GiveBack(ended, !ok), c);
  }

  /** And of the timeout's. */
  lemma TimeoutPoolsOnlyWhenConfirmed(s: Tx, c: Call, ok: bool)
    requires Reached(s) && s.recorded && Enabled(s, ETimeoutEnded(c, ok))
    ensures Step(s, ETimeoutEnded(c, ok)) == Parted(s.(calls := s.calls - {c}, db := []), if ok then Released else Destroyed)
  {
    hide Reached, GiveBack, Parted;
    EnderIsRegistered(s, c);
    GivenBackIsParted(s.(calls := s.calls - {c}, db := []), !ok);
  }

  // ----- the form -----

  /** The answers that end a transaction, and the form each gives the client back in. */
  predicate EndsIt(s: Tx, e: Event) {
    (e.EBegun? && !e.ok) || e.ECommitEnded? || e.ERollbackEnded? || e.EAborted? || e.ETimeoutEnded? || (e == ETimeout && Open(s) && s.busy)
  }

  /** A ROLLBACK that failed, or a statement the timeout could not wait for. */
  predicate Spoils(s: Tx, e: Event) {
    ((e.ERollbackEnded? || e.EAborted? || e.ETimeoutEnded?) && !e.ok) || e == ETimeout
  }

  /** The client is given back by exactly the events that end the transaction, once; and it is destroyed, instead of pooled, if
      and only if a ROLLBACK failed on it or a statement was still in flight when the timeout elapsed. A failed COMMIT and a
      failed BEGIN pool it. */
  lemma ClientIsDestroyedExactlyWhen(s: Tx, e: Event)
    requires Reached(s) && Enabled(s, e)
    ensures Step(s, e).given == if EndsIt(s, e) then s.given + [if Spoils(s, e) then Destroyed else Released] else s.given
  {
    hide Reached, Recorded, Step, EndsIt, Spoils;
    ReachedKeeps(s);
    if !s.recorded {
      UnbornGives(s, e);
    } else if IsAnswer(e) {
      AnswerGives(s, e);
    } else {
      StartGives(s, e);
    }
  }

  lemma StartGives(s: Tx, e: Event)
    requires Enabled(s, e) && !IsAnswer(e)
    ensures Step(s, e).given == if EndsIt(s, e) then s.given + [if Spoils(s, e) then Destroyed else Released] else s.given
  {
    hide Step, Over, Sent, Parted, Below, UpTo;
    match e
    case EExecute => StatementsTakeTurns(s);
    case ECreateSavepoint => SavepointsTakeTurns(s, 0);
    case EReleaseSavepoint(n) => SavepointsTakeTurns(s, n);
    case ERollbackTo(n) => SavepointsTakeTurns(s, n);
    case ECommit => EndingsAreSentOnce(s);
    case ERollback => EndingsAreSentOnce(s);
    case ETimeout => TimeoutSendsOrGivesUp(s);
  }

  lemma AnswerGives(s: Tx, e: Event)
    requires Reached(s) && s.recorded && Recorded(s) && Enabled(s, e) && IsAnswer(e)
    ensures Step(s, e).given == if EndsIt(s, e) then s.given + [if Spoils(s, e) then Destroyed else Released] else s.given
  {
    hide Reached, Recorded, Step, Over, Sent, Parted, Below, UpTo, Left;
    match e
    case EBegun(ok, timed, callback) => NotBegin(s); assert false;
    case ECallbackEnded(threw) => CallbackCommitsOrRollsBack(s, threw);
    case EExecuted(c, r) => FailureIsUndone(s, c, r);
    case EUndone(c, r) => FailedUndoRollsBack(s, c, r);
    case EAborted(c, ok) => AbortPoolsOnlyWhenConfirmed(s, c, ok);
    case ESavepointCreated(c, r) => ConfirmedSavepointIsPushed(s, c, r);
    case ESavepointReleased(c, r) => ReleasedWhateverCameBack(s, c, r);
    case ERolledBackTo(c, r) => RewoundWhateverCameBack(s, c, r);
    case ECommitEnded(c, ok) => CommitPoolsTheClient(s, c, ok);
    case ERollbackEnded(c, ok) => RollbackPoolsOnlyWhenConfirmed(s, c, ok);
    case ETimeoutEnded(c, ok) => TimeoutPoolsOnlyWhenConfirmed(s, c, ok);
  }

  lemma UnbornGives(s: Tx, e: Event)
    requires Unborn(s) && !s.recorded && Enabled(s, e)
    ensures Step(s, e).given == if EndsIt(s, e) then s.given + [if Spoils(s, e) then Destroyed else Released] else s.given
  {
  }

  // ----- transaction(fn) -----

  lemma SettlingCloses(s: Tx, e: Event)
    requires Reached(s) && Enabled(s, e)
    ensures Step(s, e).result != s.result ==> !Open(Step(s, e))
    ensures s.recorded && !Open(s) ==> !Open(Step(s, e)) && Step(s, e).recorded
  {
    hide Reached, Recorded, Step;
    ReachedKeeps(s);
    if s.recorded {
      AnyStepOnward(s, e);
      StepKeepsRecorded(s, e);
      if IsAnswer(e) { AnswerSettles(s, e); } else { StartSettlesNothing(s, e); }
    } else {
      UnbornSettles(s, e);
    }
  }

  lemma AnswerSettles(s: Tx, e: Event)
    requires Reached(s) && s.recorded && Recorded(s) && Enabled(s, e) && IsAnswer(e)
    ensures Step(s, e).result != s.result ==> !Open(Step(s, e))
  {
    hide Reached, Recorded, Step, Over, Sent, Parted, Below, UpTo, Left;
    match e
    case EBegun(ok, timed, callback) => NotBegin(s); assert false;
    case ECallbackEnded(threw) => CallbackCommitsOrRollsBack(s, threw);
    case EExecuted(c, r) => FailureIsUndone(s, c, r);
    case EUndone(c, r) => FailedUndoRollsBack(s, c, r);
    case EAborted(c, ok) => AbortPoolsOnlyWhenConfirmed(s, c, ok);
    case ESavepointCreated(c, r) => ConfirmedSavepointIsPushed(s, c, r);
    case ESavepointReleased(c, r) => ReleasedWhateverCameBack(s, c, r);
    case ERolledBackTo(c, r) => RewoundWhateverCameBack(s, c, r);
    case ECommitEnded(c, ok) => CommitPoolsTheClient(s, c, ok);
    case ERollbackEnded(c, ok) => RollbackPoolsOnlyWhenConfirmed(s, c, ok);
    case ETimeoutEnded(c, ok) => TimeoutPoolsOnlyWhenConfirmed(s, c, ok);
  }

  lemma StartSettlesNothing(s: Tx, e: Event)
    requires Enabled(s, e) && !IsAnswer(e)
    ensures Step(s, e).result == s.result
  {
    hide Step, Below, UpTo;
    match e
    case EExecute => StatementsTakeTurns(s);
    case ECreateSavepoint => SavepointsTakeTurns(s, 0);
    case EReleaseSavepoint(n) => SavepointsTakeTurns(s, n);
    case ERollbackTo(n) => SavepointsTakeTurns(s, n);
    case ECommit => EndingsAreSentOnce(s);
    case ERollback => EndingsAreSentOnce(s);
    case ETimeout => TimeoutSendsOrGivesUp(s);
  }

  lemma UnbornSettles(s: Tx, e: Event)
    requires Unborn(s) && !s.recorded && Enabled(s, e)
    ensures Step(s, e).result != s.result ==> !Open(Step(s, e)) && !Step(s, e).recorded
    ensures !Step(s, e).recorded ==> !Step(s, e).registered
    ensures Step(s, e).recorded ==> Step(s, e).result == s.result == Pending
  {
  }

  /** Once `transaction(fn)` has settled, resolved or rejected, the transaction is no longer open. */
  lemma SettledIsOver(s: Tx)
    requires Reached(s) && s.result != Pending
    ensures !Open(s)
  {
    hide CanRun, Run;
    var auto, es :| Reaches(auto, es, s);
    StartIsReached(auto);
    RunSettles(Start(auto), es);
  }

  lemma StartIsReached(auto: bool)
    ensures Reached(Start(auto))
  {
    assert Reaches(auto, [], Start(auto));
  }

  lemma {:induction false} RunSettles(s: Tx, es: seq<Event>)
    requires Reached(s) && (s.result != Pending ==> !Open(s)) && CanRun(s, es)
    ensures Run(s, es).result != Pending ==> !Open(Run(s, es))
    decreases |es|
  {
    hide Reached, Step, Enabled, Open;
    if es != [] {
      StepSettles(s, es[0]);
      ReachedStep(s, es[0]);
      RunSettles(Step(s, es[0]), es[1..]);
    }
  }

  lemma StepSettles(s: Tx, e: Event)
    requires Reached(s) && (s.result != Pending ==> !Open(s)) && Enabled(s, e)
    ensures Step(s, e).result != Pending ==> !Open(Step(s, e))
  {
    hide Reached, Step, Recorded;
    ReachedKeeps(s);
    SettlingCloses(s, e);
    if !s.recorded { UnbornSettles(s, e); }
  }

  // ----- nothing is stuck -----

  /** What the database, or `fn`, may answer a call; a savepoint operation is confirmed only of a savepoint the database has. */
  ghost predicate CanEnd(s: Tx, c: Call)
    requires c in s.calls
  {
    match s.calls[c]
    case Begin => forall ok, timed, callback :: Enabled(s, EBegun(ok, timed, callback))
    case Callback => forall threw :: Enabled(s, ECallbackEnded(threw))
    case Statement => forall r :: Enabled(s, EExecuted(c, r))
    case Undo(n) => forall r :: r != Done || n in s.db ==> Enabled(s, EUndone(c, r))
    case Abort => forall ok :: Enabled(s, EAborted(c, ok))
    case Open(n) => forall r :: Enabled(s, ESavepointCreated(c, r))
    case Close(n) => forall r :: r != Done || n in s.db ==> Enabled(s, ESavepointReleased(c, r))
    case Rewind(n) => forall r :: r != Done || n in s.db ==> Enabled(s, ERolledBackTo(c, r))
    case Commit => forall ok :: Enabled(s, ECommitEnded(c, ok))
    case Rollback => forall ok :: Enabled(s, ERollbackEnded(c, ok))
    case TimeoutRollback => forall ok :: Enabled(s, ETimeoutEnded(c, ok))
  }

  /** Every call under way can end, with any answer, and a set timeout can elapse. */
  lemma EverythingCanGoOn(s: Tx)
    requires Reached(s)
    ensures forall c :: c in s.calls ==> CanEnd(s, c)
    ensures s.timer ==> Enabled(s, ETimeout)
  {
    hide Reached, Promise, Turns, Enders;
    ReachedKeeps(s);
  }
}
