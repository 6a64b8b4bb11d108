/** The transaction part of `SQLEngine.ts`: one record, its registry entry, and a method for each uninterrupted
    stretch of the calls that work on it.

    `around` stands for the surroundings: what is on the wire, how the client was given back, what the database
    has. Each method is proved to take the transaction from one state of `TransactionModel` to the next. */
module SQLEngines {
  import opened TransactionModel
  import opened TransactionCustody
  import Pool = PoolModel
  import ConnectionPools

  datatype Around = Around(
    calls: map<Call, Wire>, nextCall: Call, recorded: bool, given: seq<Custody>, result: Result, threw: bool,
    commitBy: set<Call>, acked: bool, db: seq<nat>)

  class TxRecord {
    const autoRollback: bool

    var registered: bool  // the registry maps the id to this record
    var state: Status
    var timer: bool
    var savepoints: seq<nat>
    var spCounter: nat
    var busy: bool

    var around: Around

    ghost function Abs(): Tx
      reads this
    {
      Tx(autoRollback, registered, state, timer, savepoints, spCounter, busy,
         around.calls, around.nextCall, around.recorded, around.given, around.result, around.threw,
         around.commitBy, around.acked, around.db)
    }

    /** The record is in a state its transaction can reach, so whatever is proved of those holds of it. */
    ghost predicate Valid()
      reads this
    {
      Reached(Abs())
    }

    constructor (autoRollback: bool)
      ensures Valid() && Abs() == Start(autoRollback)
    {
      this.autoRollback := autoRollback;
      registered, state, timer, savepoints, spCounter, busy := false, ACTIVE, false, [], 0, false;
      around := Around(map[0 := Begin], 1, false, [], Pending, false, {}, false, []);
      new;
      assert Reaches(autoRollback, [], Start(autoRollback));
    }

    predicate IsLive()
      reads this
      ensures IsLive() <==> Live(Abs())
    {
      registered && state == ACTIVE
    }

    /** The client has been given back at most once, and the registry has the record exactly while it is reserved. */
    lemma Custody()
      requires Valid()
      ensures |around.given| <= 1 && (around.recorded ==> (registered <==> around.given == []))
      ensures around.result == Resolved ==> around.acked && state == COMMITTED
    {
      ClientGivenBackOnce(Abs());
      ResolvedMeansCommitted(Abs());
      hide Reached, Step;
    }

    // ----- internals -----

    method Send(w: Wire)
      modifies this`around
      ensures Abs() == Launch(old(Abs()), w)
    {
      around := around.(calls := around.calls[around.nextCall := w], nextCall := around.nextCall + 1);
    }

    /** What the answer says of the database's savepoints. */
    method DatabaseHas(db: seq<nat>)
      modifies this`around
      ensures Abs() == old(Abs()).(db := db)
    {
      around := around.(db := db);
    }

    method StackIs(names: seq<nat>)
      modifies this`savepoints
      ensures Abs() == old(Abs()).(savepoints := names)
    {
      savepoints := names;
    }

    /** The call `c` that ended the transaction is over. */
    method EndedAs(c: Call, next: Status, acked: bool, result: Result)
      modifies this`state, this`around
      ensures Abs() == Finish(old(Abs()), c).(state := next, db := [], acked := acked, result := result)
    {
      state, around := next, around.(calls := around.calls - {c}, db := [], acked := acked, result := result);
    }

    method EndStatement(c: Call)
      modifies this`busy, this`around
      ensures Abs() == EndTurn(old(Abs()), c)
    {
      busy, around := false, around.(calls := around.calls - {c});
    }

    method ReleaseTransactionClient(destroy: bool)
      modifies this`registered, this`around
      ensures Abs() == GiveBack(old(Abs()), destroy)
    {
      if !registered { return; }
      registered := false;
      around := around.(given := around.given + [if destroy then Destroyed else Released]);
    }

    /** `rollbackTransaction` awaited by the failed statement `c`. */
    method AbortTransaction(c: Call)
      modifies this
      ensures Abs() == AbortFrom(old(Abs()), c)
    {
      if IsLive() {
        state, timer, around := ROLLING_BACK, false, around.(calls := around.calls[c := Abort]);
      } else {
        EndStatement(c);
      }
    }

    // ----- begin and transaction(fn) -----

    method BeginTransaction(ok: bool, timed: bool, callback: bool)
      requires Valid() && Enabled(Abs(), EBegun(ok, timed, callback))
      modifies this
      ensures Valid() && Abs() == Begun(old(Abs()), ok, timed, callback)
    {
      hide Reached, Step;
      ReachedBegun(Abs(), ok, timed, callback);
      if !ok {
        around := around.(calls := around.calls - {0}, given := around.given + [Released],
                          result := if callback then Rejected else around.result);
        return;
      }
      registered, state, timer := true, ACTIVE, timed;
      around := around.(recorded := true,
                        calls := if callback then around.calls[0 := Callback] else around.calls - {0});
    }

    method CallbackDone(threw: bool)
      requires Valid() && Enabled(Abs(), ECallbackEnded(threw))
      modifies this
      ensures Valid() && Abs() == CallbackEnded(old(Abs()), threw)
    {
      hide Reached, Step;
      ReachedCallbackEnded(Abs(), threw);
      if threw {
        if IsLive() { CallbackSends(Rollback, ROLLING_BACK, true, around.commitBy); } else { CallbackRejects(true); }
      } else if !IsLive() {
        CallbackRejects(around.threw);
      } else {
        CallbackSends(Commit, COMMITTING, around.threw, around.commitBy + {0});
      }
    }

    method CallbackSends(w: Wire, next: Status, threw: bool, commitBy: set<Call>)
      modifies this`state, this`timer, this`around
      ensures Abs() == old(Abs()).(state := next, timer := false, threw := threw, calls := old(around.calls)[0 := w],
                                   commitBy := commitBy)
    {
      state, timer, around := next, false, around.(threw := threw, calls := around.calls[0 := w], commitBy := commitBy);
    }

    method CallbackRejects(threw: bool)
      modifies this`around
      ensures Abs() == old(Abs()).(threw := threw, calls := old(around.calls) - {0}, result := Rejected)
    {
      around := around.(threw := threw, calls := around.calls - {0}, result := Rejected);
    }

    // ----- execute -----

    method ExecuteStart()
      requires Valid()
      modifies this
      ensures Valid() && Abs() == Execute(old(Abs()))
    {
      hide Reached, Step, Launch;
      ReachedExecute(Abs());
      if !IsLive() || busy { return; }
      busy := true;
      Send(Statement);
    }

    method ExecuteAnswered(c: Call, r: Reply)
      requires Valid() && Enabled(Abs(), EExecuted(c, r))
      modifies this
      ensures Valid() && Abs() == Executed(old(Abs()), c, r)
    {
      hide Reached, Step, EndTurn, AbortFrom, Wiped;
      ReachedExecuted(Abs(), c, r);
      if r == Done {
        EndStatement(c);
        return;
      }
      DatabaseHas(Wiped(around.db, r));
      if !autoRollback {
        EndStatement(c);
      } else if IsLive() && |savepoints| > 0 {
        around := around.(calls := around.calls[c := Undo(savepoints[|savepoints| - 1])]);
      } else {
        AbortTransaction(c);
      }
    }

    method UndoAnswered(c: Call, r: Reply)
      requires Valid() && Enabled(Abs(), EUndone(c, r))
      modifies this
      ensures Valid() && Abs() == Undone(old(Abs()), c, r)
    {
      hide Reached, Step, EndTurn, AbortFrom, Wiped, Applied, UpTo;
      ReachedUndone(Abs(), c, r);
      var savepoint := around.calls[c].savepoint;
      DatabaseHas(Wiped(if Applied(r) then UpTo(around.db, savepoint) else around.db, r));
      if r == Done {
        EndStatement(c);
      } else {
        AbortTransaction(c);
      }
    }

    method AbortAnswered(c: Call, ok: bool)
      requires Valid() && Enabled(Abs(), EAborted(c, ok))
      modifies this
      ensures Valid() && Abs() == Aborted(old(Abs()), c, ok)
    {
      hide Reached, Step, GiveBack, EndTurn;
      ReachedAborted(Abs(), c, ok);
      if ok { state := ROLLBACK; }
      DatabaseHas([]);
      ReleaseTransactionClient(!ok);
      EndStatement(c);
    }

    // ----- savepoints -----

    method CreateSavepointStart()
      requires Valid()
      modifies this
      ensures Valid() && Abs() == CreateSavepoint(old(Abs()))
    {
      hide Reached, Step, Launch;
      ReachedCreateSavepoint(Abs());
      if !IsLive() { return; }
      spCounter := spCounter + 1;
      if busy { return; }
      busy := true;
      Send(Open(spCounter));
    }

    method CreateSavepointAnswered(c: Call, r: Reply)
      requires Valid() && Enabled(Abs(), ESavepointCreated(c, r))
      modifies this
      ensures Valid() && Abs() == SavepointCreated(old(Abs()), c, r)
    {
      hide Reached, Step, EndTurn, Wiped, Applied;
      ReachedSavepointCreated(Abs(), c, r);
      var name := around.calls[c].savepoint;
      var db := Wiped(if Applied(r) then around.db + [name] else around.db, r);
      var names := savepoints + [name];
      EndStatement(c);
      DatabaseHas(db);
      if r == Done { StackIs(names); }
    }

    method ReleaseSavepointStart(name: nat)
      requires Valid()
      modifies this
      ensures Valid() && Abs() == ReleaseSavepoint(old(Abs()), name)
    {
      hide Reached, Step, Launch, Below;
      ReachedReleaseSavepoint(Abs(), name);
      if !IsLive() { return; }
      if busy {
        savepoints := Below(savepoints, name);
        return;
      }
      busy := true;
      Send(Close(name));
    }

    method ReleaseSavepointAnswered(c: Call, r: Reply)
      requires Valid() && Enabled(Abs(), ESavepointReleased(c, r))
      modifies this
      ensures Valid() && Abs() == SavepointReleased(old(Abs()), c, r)
    {
      hide Reached, Step, EndTurn, Wiped, Applied, Below;
      ReachedSavepointReleased(Abs(), c, r);
      var name := around.calls[c].savepoint;
      var db := Wiped(if Applied(r) then Below(around.db, name) else around.db, r);
      var names := Below(savepoints, name);
      EndStatement(c);
      DatabaseHas(db);
      StackIs(names);
    }

    method RollbackToSavepointStart(name: nat)
      requires Valid()
      modifies this
      ensures Valid() && Abs() == RollbackToSavepoint(old(Abs()), name)
    {
      hide Reached, Step, Launch, UpTo;
      ReachedRollbackToSavepoint(Abs(), name);
      if !IsLive() { return; }
      if busy {
        savepoints := UpTo(savepoints, name);
        return;
      }
      busy := true;
      Send(Rewind(name));
    }

    method RollbackToSavepointAnswered(c: Call, r: Reply)
      requires Valid() && Enabled(Abs(), ERolledBackTo(c, r))
      modifies this
      ensures Valid() && Abs() == RolledBackTo(old(Abs()), c, r)
    {
      hide Reached, Step, EndTurn, Wiped, Applied, UpTo;
      ReachedRolledBackTo(Abs(), c, r);
      var name := around.calls[c].savepoint;
      var db := Wiped(if Applied(r) then UpTo(around.db, name) else around.db, r);
      var names := UpTo(savepoints, name);
      EndStatement(c);
      DatabaseHas(db);
      StackIs(names);
    }

    // ----- commit, rollback, timeout -----

    method CommitTransactionStart()
      requires Valid()
      modifies this
      ensures Valid() && Abs() == CommitStart(old(Abs()))
    {
      hide Reached, Step, Launch;
      ReachedCommitStart(Abs());
      if !IsLive() { return; }
      state, timer, around := COMMITTING, false, around.(commitBy := around.commitBy + {around.nextCall});
      Send(Commit);
    }

    method CommitAnswered(c: Call, ok: bool)
      requires Valid() && Enabled(Abs(), ECommitEnded(c, ok))
      modifies this
      ensures Valid() && Abs() == CommitEnded(old(Abs()), c, ok)
    {
      hide Reached, Step, GiveBack;
      ReachedCommitEnded(Abs(), c, ok);
      EndedAs(c, if ok then COMMITTED else state, around.acked || ok,
              if c == 0 then (if ok then Resolved else Rejected) else around.result);
      ReleaseTransactionClient(false);
    }

    method RollbackTransactionStart()
      requires Valid()
      modifies this
      ensures Valid() && Abs() == RollbackStart(old(Abs()))
    {
      hide Reached, Step, Launch;
      ReachedRollbackStart(Abs());
      if !IsLive() { return; }
      state, timer := ROLLING_BACK, false;
      Send(Rollback);
    }

    method RollbackAnswered(c: Call, ok: bool)
      requires Valid() && Enabled(Abs(), ERollbackEnded(c, ok))
      modifies this
      ensures Valid() && Abs() == RollbackEnded(old(Abs()), c, ok)
    {
      hide Reached, Step, GiveBack;
      ReachedRollbackEnded(Abs(), c, ok);
      EndedAs(c, if ok then ROLLBACK else state, around.acked, if c == 0 then Rejected else around.result);
      ReleaseTransactionClient(!ok);
    }

    method TimeoutElapsed()
      requires Valid() && Enabled(Abs(), ETimeout)
      modifies this
      ensures Valid() && Abs() == TimeoutFires(old(Abs()))
    {
      hide Reached, Step, GiveBack, Launch;
      ReachedTimeoutFires(Abs());
      timer := false;
      if !IsLive() { return; }
      state := TIMEOUT;
      if busy {
        ReleaseTransactionClient(true);
        return;
      }
      Send(TimeoutRollback);
    }

    method TimeoutRollbackAnswered(c: Call, ok: bool)
      requires Valid() && Enabled(Abs(), ETimeoutEnded(c, ok))
      modifies this
      ensures Valid() && Abs() == TimeoutEnded(old(Abs()), c, ok)
    {
      hide Reached, Step, GiveBack;
      ReachedTimeoutEnded(Abs(), c, ok);
      around := around.(calls := around.calls - {c}, db := []);
      ReleaseTransactionClient(!ok);
    }
  }

  // ----- what each event reaches -----

  lemma ReachedBegun(s: Tx, ok: bool, timed: bool, callback: bool)
    requires Reached(s) && Enabled(s, EBegun(ok, timed, callback))
    ensures Reached(Begun(s, ok, timed, callback))
  {
    ReachedStep(s, EBegun(ok, timed, callback));
  }

  lemma ReachedCallbackEnded(s: Tx, threw: bool)
    requires Reached(s) && Enabled(s, ECallbackEnded(threw))
    ensures Reached(CallbackEnded(s, threw))
  {
    ReachedStep(s, ECallbackEnded(threw));
  }

  lemma ReachedExecute(s: Tx)
    requires Reached(s) && Enabled(s, EExecute)
    ensures Reached(Execute(s))
  {
    ReachedStep(s, EExecute);
  }

  lemma ReachedExecuted(s: Tx, c: Call, r: Reply)
    requires Reached(s) && Enabled(s, EExecuted(c, r))
    ensures Reached(Executed(s, c, r))
  {
    ReachedStep(s, EExecuted(c, r));
  }

  lemma ReachedUndone(s: Tx, c: Call, r: Reply)
    requires Reached(s) && Enabled(s, EUndone(c, r))
    ensures Reached(Undone(s, c, r))
  {
    ReachedStep(s, EUndone(c, r));
  }

  lemma ReachedAborted(s: Tx, c: Call, ok: bool)
    requires Reached(s) && Enabled(s, EAborted(c, ok))
    ensures Reached(Aborted(s, c, ok))
  {
    ReachedStep(s, EAborted(c, ok));
  }

  lemma ReachedCreateSavepoint(s: Tx)
    requires Reached(s) && Enabled(s, ECreateSavepoint)
    ensures Reached(CreateSavepoint(s))
  {
    ReachedStep(s, ECreateSavepoint);
  }

  lemma ReachedSavepointCreated(s: Tx, c: Call, r: Reply)
    requires Reached(s) && Enabled(s, ESavepointCreated(c, r))
    ensures Reached(SavepointCreated(s, c, r))
  {
    ReachedStep(s, ESavepointCreated(c, r));
  }

  lemma ReachedReleaseSavepoint(s: Tx, name: nat)
    requires Reached(s) && Enabled(s, EReleaseSavepoint(name))
    ensures Reached(ReleaseSavepoint(s, name))
  {
    ReachedStep(s, EReleaseSavepoint(name));
  }

  lemma ReachedSavepointReleased(s: Tx, c: Call, r: Reply)
    requires Reached(s) && Enabled(s, ESavepointReleased(c, r))
    ensures Reached(SavepointReleased(s, c, r))
  {
    ReachedStep(s, ESavepointReleased(c, r));
  }

  lemma ReachedRollbackToSavepoint(s: Tx, name: nat)
    requires Reached(s) && Enabled(s, ERollbackTo(name))
    ensures Reached(RollbackToSavepoint(s, name))
  {
    ReachedStep(s, ERollbackTo(name));
  }

  lemma ReachedRolledBackTo(s: Tx, c: Call, r: Reply)
    requires Reached(s) && Enabled(s, ERolledBackTo(c, r))
    ensures Reached(RolledBackTo(s, c, r))
  {
    ReachedStep(s, ERolledBackTo(c, r));
  }

  lemma ReachedCommitStart(s: Tx)
    requires Reached(s) && Enabled(s, ECommit)
    ensures Reached(CommitStart(s))
  {
    ReachedStep(s, ECommit);
  }

  lemma ReachedCommitEnded(s: Tx, c: Call, ok: bool)
    requires Reached(s) && Enabled(s, ECommitEnded(c, ok))
    ensures Reached(CommitEnded(s, c, ok))
  {
    ReachedStep(s, ECommitEnded(c, ok));
  }

  lemma ReachedRollbackStart(s: Tx)
    requires Reached(s) && Enabled(s, ERollback)
    ensures Reached(RollbackStart(s))
  {
    ReachedStep(s, ERollback);
  }

  lemma ReachedRollbackEnded(s: Tx, c: Call, ok: bool)
    requires Reached(s) && Enabled(s, ERollbackEnded(c, ok))
    ensures Reached(RollbackEnded(s, c, ok))
  {
    ReachedStep(s, ERollbackEnded(c, ok));
  }

  lemma ReachedTimeoutFires(s: Tx)
    requires Reached(s) && Enabled(s, ETimeout)
    ensures Reached(TimeoutFires(s))
  {
    ReachedStep(s, ETimeout);
  }

  lemma ReachedTimeoutEnded(s: Tx, c: Call, ok: bool)
    requires Reached(s) && Enabled(s, ETimeoutEnded(c, ok))
    ensures Reached(TimeoutEnded(s, c, ok))
  {
    ReachedStep(s, ETimeoutEnded(c, ok));
  }

  // ----- a statement outside any transaction -----

  /** The end of `execute` with a client of its own, held by its acquire `call`. The pool gets the client back once, a
      suspect one to be destroyed; only if the check of a suspect one throws does the call hold on to it, for good. */
  method ExecuteAlone(pool: ConnectionPools.ConnectionPool, call: Pool.Id, ok: bool, check: Pool.Check)
    requires pool.Valid() && call in pool.around.held
    modifies pool
    ensures pool.Valid()
    ensures pool.Abs() ==
      if ok || check == Pool.Valid then Pool.Release(old(pool.Abs()), call)
      else if check == Pool.Invalid then Pool.Destroy(old(pool.Abs()), call)
      else old(pool.Abs())
    ensures call in pool.around.held <==> !ok && check == Pool.Threw
  {
    hide Pool.GiveBack, Pool.Forget;
    var failed := !ok;
    HoldsNoMore(pool.Abs(), call);
    if failed && check == Pool.Threw { return; }
    if !failed || check == Pool.Valid {
      pool.ReleaseHeld(call);
    } else {
      pool.DestroyHeld(call);
    }
  }

  lemma HoldsNoMore(s: Pool.State, call: Pool.Id)
    requires call in s.held
    ensures call !in Pool.Release(s, call).held && call !in Pool.Destroy(s, call).held
  {
  }
}
