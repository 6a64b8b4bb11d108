/** The engine's savepoint stack against the database's. */
module TransactionSavepoints {
  import opened TransactionModel
  import opened TransactionCustody

  predicate Rising(xs: seq<nat>) {
    forall i, j :: 0 <= i < j < |xs| ==> xs[i] < xs[j]
  }

  predicate Within(xs: seq<nat>, ys: seq<nat>) {
    forall x :: x in xs ==> x in ys
  }

  /** `xs` is `ys` with some elements left out, in the same order. */
  predicate Sublist(xs: seq<nat>, ys: seq<nat>)
    decreases |ys|
  {
    if xs == [] then true
    else if ys == [] then false
    else if xs[|xs| - 1] == ys[|ys| - 1] then Sublist(xs[..|xs| - 1], ys[..|ys| - 1])
    else Sublist(xs, ys[..|ys| - 1])
  }

  lemma {:induction false} RisingWithinIsSublist(xs: seq<nat>, ys: seq<nat>)
    requires Rising(xs) && Rising(ys) && Within(xs, ys)
    ensures Sublist(xs, ys)
    decreases |ys|
  {
    if xs != [] {
      var x := xs[|xs| - 1];
      assert x in ys;
      var y, front := ys[|ys| - 1], ys[..|ys| - 1];
      assert forall z :: z in ys ==> z == y || z in front;
      assert forall z :: z in xs ==> z <= x;
      if x == y {
        assert forall z :: z in xs[..|xs| - 1] ==> z in xs && z < x;
        RisingWithinIsSublist(xs[..|xs| - 1], front);
      } else {
        assert forall z :: z in front ==> z < y;
        assert x in front && forall z :: z in xs ==> z != y;
        RisingWithinIsSublist(xs, front);
      }
    }
  }

  lemma Cuts(xs: seq<nat>, n: nat)
    requires Rising(xs)
    ensures Rising(Below(xs, n)) && Rising(UpTo(xs, n))
    ensures forall x :: x in Below(xs, n) <==> x in xs && (n in xs ==> x < n)
    ensures forall x :: x in UpTo(xs, n) <==> x in xs && (n in xs ==> x <= n)
  {
    var i := IndexOf(xs, n);
    if i >= 0 {
      forall x | x in xs ensures x < n <==> x in xs[..i] {
        var j :| 0 <= j < |xs| && xs[j] == x;
        assert j < i ==> xs[..i][j] == x;
      }
      forall x | x in xs ensures x <= n <==> x in xs[..i + 1] {
        var j :| 0 <= j < |xs| && xs[j] == x;
        assert j <= i ==> xs[..i + 1][j] == x;
      }
    }
  }

  /** What a caller can check of a name before using it: the engine has it, or has nothing that new. */
  predicate Safe(mem: seq<nat>, n: nat) {
    n in mem || forall x :: x in mem ==> x < n
  }

  lemma Push(xs: seq<nat>, n: nat)
    requires Rising(xs) && forall x :: x in xs ==> x < n
    ensures Rising(xs + [n])
    ensures forall x :: x in xs + [n] <==> x in xs || x == n
  {
    assert forall i :: 0 <= i < |xs| ==> xs[i] in xs;
  }

  /** A rising stack with `n` put where it belongs. */
  function Insert(xs: seq<nat>, n: nat): seq<nat> {
    if xs == [] || xs[|xs| - 1] < n then xs + [n] else Insert(xs[..|xs| - 1], n) + [xs[|xs| - 1]]
  }

  lemma {:induction false} InsertRises(xs: seq<nat>, n: nat)
    requires Rising(xs) && n !in xs
    ensures Rising(Insert(xs, n)) && forall x :: x in Insert(xs, n) <==> x == n || x in xs
  {
    if xs == [] || xs[|xs| - 1] < n {
      Push(xs, n);
    } else {
      var front, last := xs[..|xs| - 1], xs[|xs| - 1];
      InsertRises(front, n);
      Push(Insert(front, n), last);
      assert xs == front + [last];
    }
  }

  /** The condition is exact: cutting both stacks at `n` keeps every database stack above the engine's if and only if
      `n` is safe. */
  lemma SafeNamesExactly(mem: seq<nat>, n: nat)
    requires Rising(mem)
    ensures Safe(mem, n) <==> forall db :: Rising(db) && Within(mem, db) ==> Within(UpTo(mem, n), UpTo(db, n))
    ensures Safe(mem, n) <==> forall db :: Rising(db) && Within(mem, db) ==> Within(Below(mem, n), Below(db, n))
  {
    hide UpTo, Below;
    Cuts(mem, n);
    if Safe(mem, n) {
      forall db | Rising(db) && Within(mem, db)
        ensures Within(UpTo(mem, n), UpTo(db, n)) && Within(Below(mem, n), Below(db, n))
      {
        Cuts(db, n);
      }
    } else {
      InsertRises(mem, n);
      Cuts(Insert(mem, n), n);
      NotThere(mem, n);
    }
  }

  lemma NotThere(mem: seq<nat>, n: nat)
    requires n !in mem
    ensures UpTo(mem, n) == mem && Below(mem, n) == mem
  {
  }

  ghost predicate Stacks(mem: seq<nat>, db: seq<nat>, counter: nat) {
    && Rising(mem) && Rising(db)
    && (forall x :: x in mem || x in db ==> x <= counter)
  }

  /** What a statement in flight may rely on when its answer comes. */
  ghost predicate Fits(w: Wire, mem: seq<nat>, db: seq<nat>, counter: nat) {
    match w
    case Open(n) => n <= counter && forall x :: x in mem || x in db ==> x < n
    case Close(n) => Safe(mem, n)
    case Rewind(n) => Safe(mem, n)
    case Undo(n) => forall x :: x in mem ==> x <= n
    case _ => true
  }

  ghost predicate AllFit(calls: map<Call, Wire>, mem: seq<nat>, db: seq<nat>, counter: nat) {
    forall c :: c in calls ==> Fits(calls[c], mem, db, counter)
  }

  /** A failed statement whose work is being undone after the database dropped its savepoints. */
  ghost predicate Dropped(s: Tx) {
    s.db == [] && exists c :: c in s.calls && s.calls[c].Undo?
  }

  ghost predicate Agrees(s: Tx) {
    && s.autoRollback
    && Stacks(s.savepoints, s.db, s.spCounter)
    && AllFit(s.calls, s.savepoints, s.db, s.spCounter)
    && (Live(s) ==> Within(s.savepoints, s.db) || Dropped(s))
  }

  predicate LostIt(r: Reply) {
    r.Failed? && r.wiped
  }

  /** Callers name safe savepoints; and if the database rolls the transaction back on its own over a savepoint
      statement, which nobody is told of, the engine's stack is left empty. */
  predicate Disciplined(s: Tx, e: Event)
    requires Enabled(s, e)
  {
    match e
    case EReleaseSavepoint(n) => Safe(s.savepoints, n)
    case ERollbackTo(n) => Safe(s.savepoints, n)
    case ESavepointCreated(_, r) => LostIt(r) ==> Step(s, e).savepoints == []
    case ESavepointReleased(_, r) => LostIt(r) ==> Step(s, e).savepoints == []
    case ERolledBackTo(_, r) => LostIt(r) ==> Step(s, e).savepoints == []
    case _ => true
  }

  // ----- every step -----

  lemma AlonePasses(s: Tx, c: Call)
    requires s.recorded && Recorded(s) && c in s.calls && HasTurn(s.calls[c])
    ensures s.busy
    ensures forall d :: d in s.calls && d != c ==> !HasTurn(s.calls[d])
    ensures !s.calls[c].Undo? ==> !Dropped(s)
  {
    TurnCounts(s.calls, c);
    Remove(s.calls, c);
    forall d | d in s.calls && d != c ensures !HasTurn(s.calls[d]) {
      if HasTurn(s.calls[d]) { TurnCounts(s.calls - {c}, d); }
    }
  }

  lemma CreatedAgrees(s: Tx, c: Call, r: Reply)
    requires s.recorded && Recorded(s) && Agrees(s) && c in s.calls && s.calls[c].Open?
    requires LostIt(r) ==> SavepointCreated(s, c, r).savepoints == []
    ensures Agrees(SavepointCreated(s, c, r))
  {
    hide Recorded;
    var n := s.calls[c].savepoint;
    AlonePasses(s, c);
    assert Fits(s.calls[c], s.savepoints, s.db, s.spCounter);
    Push(s.db, n);
    Push(s.savepoints, n);
  }

  lemma ReleasedAgrees(s: Tx, c: Call, r: Reply)
    requires s.recorded && Recorded(s) && Agrees(s) && c in s.calls && s.calls[c].Close?
    requires r == Done ==> s.calls[c].savepoint in s.db
    requires LostIt(r) ==> SavepointReleased(s, c, r).savepoints == []
    ensures Agrees(SavepointReleased(s, c, r))
  {
    hide Recorded, Below;
    var n := s.calls[c].savepoint;
    AlonePasses(s, c);
    assert Fits(s.calls[c], s.savepoints, s.db, s.spCounter);
    Cuts(s.db, n);
    Cuts(s.savepoints, n);
  }

  lemma RewoundAgrees(s: Tx, c: Call, r: Reply)
    requires s.recorded && Recorded(s) && Agrees(s) && c in s.calls && s.calls[c].Rewind?
    requires r == Done ==> s.calls[c].savepoint in s.db
    requires LostIt(r) ==> RolledBackTo(s, c, r).savepoints == []
    ensures Agrees(RolledBackTo(s, c, r))
  {
    hide Recorded, UpTo;
    var n := s.calls[c].savepoint;
    AlonePasses(s, c);
    assert Fits(s.calls[c], s.savepoints, s.db, s.spCounter);
    Cuts(s.db, n);
    Cuts(s.savepoints, n);
  }

  lemma UndoneAgrees(s: Tx, c: Call, r: Reply)
    requires s.recorded && Recorded(s) && Agrees(s) && c in s.calls && s.calls[c].Undo?
    requires r == Done ==> s.calls[c].savepoint in s.db
    ensures Agrees(Undone(s, c, r))
  {
    hide Recorded, UpTo;
    var n := s.calls[c].savepoint;
    AlonePasses(s, c);
    assert Fits(s.calls[c], s.savepoints, s.db, s.spCounter);
    Cuts(s.db, n);
  }

  lemma ExecutedAgrees(s: Tx, c: Call, r: Reply)
    requires s.recorded && Recorded(s) && Agrees(s) && Awaits(s, c, Statement)
    ensures Agrees(Executed(s, c, r))
  {
    AlonePasses(s, c);
    hide Recorded, Agrees, AbortFrom;
    if r == Done {
      TurnEndAgrees(s, c);
    } else {
      FailedAgrees(s, c, Wiped(s.db, r));
    }
  }

  lemma TurnEndAgrees(s: Tx, c: Call)
    requires Agrees(s) && !Dropped(s)
    ensures Agrees(EndTurn(s, c))
  {
    hide Stacks;
  }

  /** The two ways on from a failure: undoing it, or rolling back. */
  lemma FailedAgrees(s: Tx, c: Call, db: seq<nat>)
    requires Agrees(s) && !Dropped(s) && (db == s.db || db == []) && c in s.calls && s.calls[c].Statement?
    ensures Live(s) && s.savepoints != [] ==> Agrees(s.(db := db, calls := s.calls[c := Undo(s.savepoints[|s.savepoints| - 1])]))
    ensures !(Live(s) && s.savepoints != []) ==> Agrees(AbortFrom(s.(db := db), c))
  {
    hide Agrees, AbortFrom;
    if Live(s) && s.savepoints != [] { UndoingAgrees(s, c, db); } else { AbortingAgrees(s, c, db); }
  }

  lemma UndoingAgrees(s: Tx, c: Call, db: seq<nat>)
    requires Agrees(s) && !Dropped(s) && (db == s.db || db == []) && Live(s) && s.savepoints != []
    ensures Agrees(s.(db := db, calls := s.calls[c := Undo(s.savepoints[|s.savepoints| - 1])]))
  {
    var undoing := s.(db := db, calls := s.calls[c := Undo(s.savepoints[|s.savepoints| - 1])]);
    assert forall x :: x in s.savepoints ==> x <= s.savepoints[|s.savepoints| - 1];
    assert undoing.calls[c].Undo?;
  }

  lemma AbortingAgrees(s: Tx, c: Call, db: seq<nat>)
    requires Agrees(s) && !Dropped(s) && (db == s.db || db == []) && !(Live(s) && s.savepoints != [])
    ensures Agrees(AbortFrom(s.(db := db), c))
  {
    hide AbortFrom, Within, Dropped;
  }

  lemma TruncatedAgrees(s: Tx, n: nat)
    requires s.recorded && Recorded(s) && Agrees(s) && Live(s) && Safe(s.savepoints, n)
    ensures Agrees(ReleaseSavepoint(s, n)) && Agrees(RollbackToSavepoint(s, n))
  {
    hide Recorded, Below, UpTo, Agrees;
    if s.busy { CutAgrees(s, n); } else { SentAgrees(s, n); }
  }

  /** A refused claim still cuts the engine's stack. */
  lemma CutAgrees(s: Tx, n: nat)
    requires Agrees(s) && Live(s)
    ensures Agrees(s.(savepoints := Below(s.savepoints, n))) && Agrees(s.(savepoints := UpTo(s.savepoints, n)))
  {
    hide Below, UpTo;
    Cuts(s.savepoints, n);
  }

  lemma SentAgrees(s: Tx, n: nat)
    requires s.recorded && Recorded(s) && Agrees(s) && Live(s) && !s.busy && Safe(s.savepoints, n)
    ensures Agrees(Launch(s.(busy := true), Close(n))) && Agrees(Launch(s.(busy := true), Rewind(n)))
  {
    forall c | c in s.calls ensures !s.calls[c].Undo? {
      TurnCounts(s.calls, c);
    }
    hide Recorded;
    assert !Dropped(s);
  }

  /** Launching a call that touches no savepoint. */
  lemma PlainAgrees(s: Tx, w: Wire)
    requires Agrees(s) && (w.Statement? || w.Commit? || w.Rollback? || w.TimeoutRollback?)
    ensures AllFit(s.calls[s.nextCall := w], s.savepoints, s.db, s.spCounter)
    ensures s.nextCall !in s.calls && Dropped(s) ==> Dropped(Launch(s, w))
  {
    if s.nextCall !in s.calls && Dropped(s) {
      var c :| c in s.calls && s.calls[c].Undo?;
      assert Launch(s, w).calls[c].Undo?;
    }
  }

  lemma StartAgrees(s: Tx, e: Event)
    requires s.recorded && Recorded(s) && Agrees(s) && Enabled(s, e) && !IsAnswer(e) && Disciplined(s, e)
    ensures Agrees(Step(s, e))
  {
    hide AllFit, Stacks, Below, UpTo;
    if Live(s) {
      match e
      case EReleaseSavepoint(n) => TruncatedAgrees(s, n);
      case ERollbackTo(n) => TruncatedAgrees(s, n);
      case EExecute => PlainAgrees(s, Statement);
      case ECreateSavepoint => OpeningAgrees(s);
      case ECommit => PlainAgrees(s, Commit);
      case ERollback => PlainAgrees(s, Rollback);
      case ETimeout => PlainAgrees(s, TimeoutRollback);
    }
  }

  lemma OpeningAgrees(s: Tx)
    requires s.recorded && Recorded(s) && Agrees(s) && Live(s)
    ensures Agrees(CreateSavepoint(s))
  {
    hide Turns, Enders;
    if Dropped(s) {
      var c :| c in s.calls && s.calls[c].Undo?;
      TurnCounts(s.calls, c);
      assert CreateSavepoint(s).calls[c].Undo?;
    }
  }

  lemma EndedAgrees(s: Tx, e: Event)
    requires s.recorded && Recorded(s) && Agrees(s) && Enabled(s, e)
    requires e.EAborted? || e.ECommitEnded? || e.ERollbackEnded? || e.ETimeoutEnded?
    ensures Agrees(Step(s, e))
  {
    TurnCounts(s.calls, e.c);
    assert AllFit(s.calls - {e.c}, s.savepoints, [], s.spCounter);
    assert !Live(Step(s, e));
    hide Recorded, AllFit;
  }

  lemma CallbackAgrees(s: Tx, threw: bool)
    requires s.recorded && Recorded(s) && Agrees(s) && Awaits(s, 0, Callback)
    ensures Agrees(CallbackEnded(s, threw))
  {
    hide Recorded;
  }

  lemma StepAgrees(s: Tx, e: Event)
    requires Inv(s) && s.autoRollback && (s.recorded ==> Agrees(s)) && Enabled(s, e) && Disciplined(s, e)
    ensures Step(s, e).autoRollback && (Step(s, e).recorded ==> Agrees(Step(s, e)))
  {
    if !s.recorded {
      if e.EBegun? { BegunAgrees(s, e.ok, e.timed, e.callback); } else { BegunFrame(s, e); }
    } else if !IsAnswer(e) {
      StartAgrees(s, e);
    } else {
      AnswerAgrees(s, e);
    }
    hide Recorded, Step, Agrees;
  }

  lemma BegunFrame(s: Tx, e: Event)
    requires Unborn(s) && s.autoRollback && !s.recorded && Enabled(s, e) && !e.EBegun?
    ensures Step(s, e).autoRollback && !Step(s, e).recorded
  {
  }

  lemma BegunAgrees(s: Tx, ok: bool, timed: bool, callback: bool)
    requires Unborn(s) && s.autoRollback && !s.recorded && Awaits(s, 0, Begin)
    ensures var s' := Begun(s, ok, timed, callback); s'.autoRollback && (s'.recorded ==> Agrees(s'))
  {
    assert s.calls == map[0 := Begin];
  }

  lemma AnswerAgrees(s: Tx, e: Event)
    requires s.recorded && Recorded(s) && Agrees(s) && Enabled(s, e) && IsAnswer(e) && Disciplined(s, e)
    ensures Agrees(Step(s, e))
  {
    hide Recorded, Agrees;
    match e
    case EBegun(_, _, _) => NotBegin(s); assert false;
    case ECallbackEnded(threw) => CallbackAgrees(s, threw);
    case EExecuted(c, r) => ExecutedAgrees(s, c, r);
    case EUndone(c, r) => UndoneAgrees(s, c, r);
    case ESavepointCreated(c, r) => CreatedAgrees(s, c, r);
    case ESavepointReleased(c, r) => ReleasedAgrees(s, c, r);
    case ERolledBackTo(c, r) => RewoundAgrees(s, c, r);
    case _ => EndedAgrees(s, e);
  }

  // ----- results -----

  predicate DisciplinedRun(s: Tx, es: seq<Event>)
    decreases |es|
  {
    es == [] || (Enabled(s, es[0]) && Disciplined(s, es[0]) && DisciplinedRun(Step(s, es[0]), es[1..]))
  }

  lemma {:induction false} RunAgrees(s: Tx, es: seq<Event>)
    requires Inv(s) && s.autoRollback && (s.recorded ==> Agrees(s)) && DisciplinedRun(s, es)
    ensures CanRun(s, es)
    ensures Inv(Run(s, es)) && (Run(s, es).recorded ==> Agrees(Run(s, es)))
    decreases |es|
  {
    hide Inv, Agrees, Step, Enabled, Disciplined;
    if es != [] {
      StepKeeps(s, es[0]);
      StepAgrees(s, es[0]);
      RunAgrees(Step(s, es[0]), es[1..]);
    }
  }

  /** With automatic rollback on, and callers who use safe names: while the transaction is open the engine's stack is the database's with elements left out, in the same order - it never claims a
      savepoint the database has dropped - except during the undo that is about to end the transaction. */
  lemma EngineNeverAhead(es: seq<Event>)
    requires DisciplinedRun(Start(true), es)
    ensures CanRun(Start(true), es)
    ensures var s := Run(Start(true), es);
      Live(s) ==> Sublist(s.savepoints, s.db) || Dropped(s)
  {
    RunAgrees(Start(true), es);
    var s := Run(Start(true), es);
    if Live(s) {
      assert s.recorded;
      if !Dropped(s) { RisingWithinIsSublist(s.savepoints, s.db); }
    }
  }

  /** The statement `c` found the database's savepoints gone and has not yet ended the transaction. */
  ghost predicate Doomed(s: Tx, c: Call) {
    Live(s) ==> c in s.calls && s.calls[c].Undo? && s.db == []
  }

  lemma DoomedStep(s: Tx, c: Call, e: Event)
    requires s.recorded && Recorded(s) && Doomed(s, c) && Enabled(s, e)
    ensures Doomed(Step(s, e), c)
  {
    hide Step, Recorded;
    if Live(s) {
      AlonePasses(s, c);
      if IsAnswer(e) { DoomedAnswer(s, c, e); } else { DoomedStart(s, c, e); }
    } else {
      DeadStays(s, e);
    }
  }

  lemma DoomedStart(s: Tx, c: Call, e: Event)
    requires s.recorded && Recorded(s) && Live(s) && s.busy && Doomed(s, c) && Enabled(s, e) && !IsAnswer(e)
    ensures Doomed(Step(s, e), c)
  {
    hide Turns, Enders, Below, UpTo;
  }

  lemma DoomedAnswer(s: Tx, c: Call, e: Event)
    requires s.recorded && Recorded(s) && Live(s) && Doomed(s, c) && Enabled(s, e) && IsAnswer(e)
    requires forall d :: d in s.calls && d != c ==> !HasTurn(s.calls[d])
    ensures Doomed(Step(s, e), c)
  {
    if e.EBegun? {
      NotBegin(s);
      assert false;
    } else if e.EUndone? {
      assert e.c == c && e.r != Done;
      hide Recorded;
    } else if e.ECallbackEnded? {
      hide Recorded;
    } else {
      TurnCounts(s.calls, e.c);
      hide Turns, Enders;
    }
  }

  lemma DeadStays(s: Tx, e: Event)
    requires s.recorded && Recorded(s) && !Live(s) && Enabled(s, e)
    ensures !Live(Step(s, e))
  {
    hide Step, Recorded;
    AnyStepOnward(s, e);
  }

  lemma {:induction false} DoomedRun(s: Tx, c: Call, es: seq<Event>)
    requires s.recorded && Recorded(s) && Doomed(s, c) && CanRun(s, es)
    ensures Doomed(Run(s, es), c)
    decreases |es|
  {
    hide Step, Enabled, Recorded, Doomed;
    if es != [] {
      DoomedStep(s, c, es[0]);
      StepKeepsRecorded(s, es[0]);
      DoomedRun(Step(s, es[0]), c, es[1..]);
    }
  }

  /** The statement `c` of an open transaction, after a failure that lost the database's savepoints. */
  ghost predicate Wiping(auto: bool, before: seq<Event>, c: Call, applied: bool) {
    && CanRun(Start(auto), before) && Live(Run(Start(auto), before))
    && Enabled(Run(Start(auto), before), EExecuted(c, Failed(applied, true)))
  }

  function AfterWipe(auto: bool, before: seq<Event>, c: Call, applied: bool): Tx
    requires Wiping(auto, before, c, applied)
  {
    Step(Run(Start(auto), before), EExecuted(c, Failed(applied, true)))
  }

  /** Such a statement has ended the transaction by the time its call is over, whatever happens meanwhile, if and only
      if automatic rollback is on. */
  lemma WipeEndsTransactionExactly(auto: bool, before: seq<Event>, c: Call, applied: bool)
    requires Wiping(auto, before, c, applied)
    ensures auto <==>
      forall after :: CanRun(AfterWipe(auto, before, c, applied), after) && c !in Run(AfterWipe(auto, before, c, applied), after).calls ==>
        !Live(Run(AfterWipe(auto, before, c, applied), after))
  {
    hide Wiping, CanRun, Run;
    var s := AfterWipe(auto, before, c, applied);
    if auto {
      forall after | CanRun(s, after) && c !in Run(s, after).calls ensures !Live(Run(s, after)) {
        WipeEndsTransaction(before, c, applied, after);
      }
    } else {
      WipeIsMissed(before, c, applied);
      NothingMore(s);
    }
  }

  lemma NothingMore(s: Tx)
    ensures CanRun(s, []) && Run(s, []) == s
  {
  }

  lemma WipeEndsTransaction(before: seq<Event>, c: Call, applied: bool, after: seq<Event>)
    requires Wiping(true, before, c, applied) && CanRun(AfterWipe(true, before, c, applied), after)
    ensures var s := Run(AfterWipe(true, before, c, applied), after); c !in s.calls ==> !Live(s)
  {
    hide Recorded, CanRun, Run;
    RunKeeps(Start(true), before);
    RunKeepsOption(Start(true), before);
    var s := Run(Start(true), before);
    FailureDooms(s, c, applied);
    DoomedRun(Executed(s, c, Failed(applied, true)), c, after);
  }

  /** A commit, a rollback, the timeout, or the end of the callback. */
  predicate Closing(e: Event) {
    e.ECommit? || e.ERollback? || e.ETimeout? || e.ECallbackEnded?
  }

  /** Without it, the call is over at once, the engine still claims the savepoints it claimed, and the transaction stays
      open until somebody closes it. */
  lemma WipeIsMissedWithoutAutoRollback(before: seq<Event>, c: Call, applied: bool, after: seq<Event>)
    requires Wiping(false, before, c, applied) && CanRun(AfterWipe(false, before, c, applied), after)
    requires forall e :: e in after ==> !Closing(e)
    ensures var s := AfterWipe(false, before, c, applied);
      && c !in s.calls && s.db == [] && s.savepoints == Run(Start(false), before).savepoints
      && (s.savepoints != [] ==> !Sublist(s.savepoints, s.db))
      && Live(Run(s, after))
  {
    hide Wiping, Run, CanRun, Recorded;
    WipeIsMissed(before, c, applied);
    StaysOpen(AfterWipe(false, before, c, applied), after);
  }

  lemma WipeIsMissed(before: seq<Event>, c: Call, applied: bool)
    requires Wiping(false, before, c, applied)
    ensures var s := AfterWipe(false, before, c, applied);
      && c !in s.calls && s.db == [] && s.savepoints == Run(Start(false), before).savepoints
      && Live(s) && s.recorded && Recorded(s) && Unsupervised(s)
  {
    hide Recorded, CanRun, Run;
    RunIsUnsupervised(Start(false), before);
    RunKeeps(Start(false), before);
    var s := Run(Start(false), before);
    assert s.recorded;
    ExecutedKeeps(s, c, Failed(applied, true));
  }

  /** No automatic rollback, and so never an undo. */
  ghost predicate Unsupervised(s: Tx) {
    !s.autoRollback && NoUndo(s.calls)
  }

  lemma StepIsUnsupervised(s: Tx, e: Event)
    requires Inv(s) && Unsupervised(s) && Enabled(s, e)
    ensures Unsupervised(Step(s, e))
  {
    hide Step, Inv;
    StepKeepsOption(s, e);
    StepAddsNoUndo(s, e);
  }

  lemma StepAddsNoUndo(s: Tx, e: Event)
    requires Unsupervised(s) && Enabled(s, e)
    ensures NoUndo(Step(s, e).calls)
  {
    hide Below, UpTo;
    if IsAnswer(e) { AnswerAddsNoUndo(s, e); }
  }

  lemma AnswerAddsNoUndo(s: Tx, e: Event)
    requires Unsupervised(s) && Enabled(s, e) && IsAnswer(e)
    ensures NoUndo(Step(s, e).calls)
  {
    hide Begun, CallbackEnded, Executed, SavepointCreated, SavepointReleased, RolledBackTo, Aborted, CommitEnded, RollbackEnded,
         TimeoutEnded;
    match e
    case EBegun(ok, timed, callback) => BegunAddsNoUndo(s, ok, timed, callback);
    case ECallbackEnded(threw) => CallbackAddsNoUndo(s, threw);
    case EExecuted(c, r) => ExecutedAddsNoUndo(s, c, r);
    case EUndone(c, r) => assert false;
    case _ => LastAnswerAddsNoUndo(s, e);
  }

  ghost predicate NoUndo(calls: map<Call, Wire>) {
    forall c :: c in calls ==> !calls[c].Undo?
  }

  lemma BegunAddsNoUndo(s: Tx, ok: bool, timed: bool, callback: bool)
    requires NoUndo(s.calls) && 0 in s.calls
    ensures NoUndo(Begun(s, ok, timed, callback).calls)
  {
  }

  lemma CallbackAddsNoUndo(s: Tx, threw: bool)
    requires NoUndo(s.calls) && 0 in s.calls
    ensures NoUndo(CallbackEnded(s, threw).calls)
  {
    hide CallbackEnded;
  }

  lemma ExecutedAddsNoUndo(s: Tx, c: Call, r: Reply)
    requires NoUndo(s.calls) && !s.autoRollback
    ensures NoUndo(Executed(s, c, r).calls)
  {
  }

  lemma LastAnswerAddsNoUndo(s: Tx, e: Event)
    requires NoUndo(s.calls) && Enabled(s, e) && IsAnswer(e)
    requires !e.EBegun? && !e.ECallbackEnded? && !e.EExecuted? && !e.EUndone?
    ensures NoUndo(Step(s, e).calls)
  {
    hide NoUndo, SavepointCreated, SavepointReleased, RolledBackTo, Aborted, CommitEnded, RollbackEnded, TimeoutEnded;
    FewerNoUndo(s.calls, e.c);
  }

  lemma FewerNoUndo(calls: map<Call, Wire>, c: Call)
    requires NoUndo(calls)
    ensures NoUndo(calls - {c})
  {
  }

  lemma {:induction false} RunIsUnsupervised(s: Tx, es: seq<Event>)
    requires Inv(s) && Unsupervised(s) && CanRun(s, es)
    ensures Unsupervised(Run(s, es))
    decreases |es|
  {
    hide Inv, Unsupervised, Step, Enabled;
    if es != [] {
      StepKeeps(s, es[0]);
      StepIsUnsupervised(s, es[0]);
      RunIsUnsupervised(Step(s, es[0]), es[1..]);
    }
  }

  lemma {:induction false} StaysOpen(s: Tx, es: seq<Event>)
    requires s.recorded && Recorded(s) && Unsupervised(s) && Live(s) && CanRun(s, es)
    requires forall e :: e in es ==> !Closing(e)
    ensures Live(Run(s, es))
    decreases |es|
  {
    hide Recorded, Unsupervised, Step, Enabled, Closing, Live;
    if es != [] {
      assert es[0] in es;
      StepStaysOpen(s, es[0]);
      StepIsUnsupervised(s, es[0]);
      StepKeepsRecorded(s, es[0]);
      StaysOpen(Step(s, es[0]), es[1..]);
    }
  }

  lemma StepStaysOpen(s: Tx, e: Event)
    requires s.recorded && Recorded(s) && Unsupervised(s) && Live(s) && Enabled(s, e) && !Closing(e)
    ensures Live(Step(s, e))
  {
    if e.EBegun? {
      NotBegin(s);
      assert false;
    } else if e.EAborted? || e.ECommitEnded? || e.ERollbackEnded? || e.ETimeoutEnded? {
      TurnCounts(s.calls, e.c);
      assert false;
    }
    hide Recorded, Turns, Enders, Below, UpTo;
  }

  lemma FailureDooms(s: Tx, c: Call, applied: bool)
    requires Inv(s) && s.autoRollback && Awaits(s, c, Statement)
    ensures var s' := Executed(s, c, Failed(applied, true));
      s'.recorded && Recorded(s') && Doomed(s', c)
  {
    hide Recorded;
    assert s.recorded;
    ExecutedKeeps(s, c, Failed(applied, true));
  }

  lemma {:induction false} RunKeepsOption(s: Tx, es: seq<Event>)
    requires Inv(s) && CanRun(s, es)
    ensures Run(s, es).autoRollback == s.autoRollback
    decreases |es|
  {
    hide Inv, Step, Enabled;
    if es != [] {
      StepKeeps(s, es[0]);
      StepKeepsOption(s, es[0]);
      RunKeepsOption(Step(s, es[0]), es[1..]);
    }
  }

  lemma StepKeepsOption(s: Tx, e: Event)
    requires Inv(s) && Enabled(s, e)
    ensures Step(s, e).autoRollback == s.autoRollback
  {
    if s.recorded {
      AnyStepOnward(s, e);
      hide Step, Recorded;
    } else {
      hide Recorded;
    }
  }

  // ----- where the agreement stops -----

  /** The reply to a savepoint statement. */
  function SavepointReply(e: Event): Reply
    requires e.ESavepointCreated? || e.ESavepointReleased? || e.ERolledBackTo?
  {
    e.r
  }

  /** A savepoint statement over which the database rolled back on its own is never noticed: the transaction stays open
      with nothing under way to end it, whatever automatic rollback says, and the engine is ahead exactly if its stack is
      not empty then. */
  lemma SavepointWipeIsMissed(auto: bool, before: seq<Event>, e: Event)
    requires CanRun(Start(auto), before) && Live(Run(Start(auto), before)) && Enabled(Run(Start(auto), before), e)
    requires (e.ESavepointCreated? || e.ESavepointReleased? || e.ERolledBackTo?) && LostIt(SavepointReply(e))
    ensures var s := Step(Run(Start(auto), before), e);
      Live(s) && !s.busy && e.c !in s.calls && (Sublist(s.savepoints, s.db) <==> s.savepoints == [])
  {
    hide CanRun, Run, Below, UpTo;
    var s := Step(Run(Start(auto), before), e);
    assert s.db == [];
  }

  /** The open transaction between statements. */
  function At(auto: bool, savepoints: seq<nat>, counter: nat, db: seq<nat>, next: Call): Tx {
    Start(auto).(registered := true, recorded := true, savepoints := savepoints, spCounter := counter, db := db,
                 calls := map[], nextCall := next)
  }

  /** From `s`, `start` and then its `answer` lead to `s'`. */
  predicate Leads(s: Tx, start: Event, answer: Event, s': Tx) {
    Enabled(s, start) && Enabled(Step(s, start), answer) && Step(Step(s, start), answer) == s'
  }

  lemma Creates(auto: bool, mem: seq<nat>, counter: nat, db: seq<nat>, next: Call)
    ensures Leads(At(auto, mem, counter, db, next), ECreateSavepoint, ESavepointCreated(next, Done),
                  At(auto, mem + [counter + 1], counter + 1, db + [counter + 1], next + 1))
  {
    assert map[next := Open(counter + 1)] - {next} == map[];
  }

  lemma ReleaseFails(auto: bool, mem: seq<nat>, counter: nat, db: seq<nat>, next: Call, n: nat)
    ensures Leads(At(auto, mem, counter, db, next), EReleaseSavepoint(n), ESavepointReleased(next, Failed(false, false)),
                  At(auto, Below(mem, n), counter, db, next + 1))
  {
    hide Below;
    assert map[next := Close(n)] - {next} == map[];
  }

  lemma RollsBack(auto: bool, mem: seq<nat>, counter: nat, db: seq<nat>, next: Call, n: nat)
    requires n in db
    ensures Leads(At(auto, mem, counter, db, next), ERollbackTo(n), ERolledBackTo(next, Done),
                  At(auto, UpTo(mem, n), counter, UpTo(db, n), next + 1))
  {
    hide UpTo;
    assert map[next := Rewind(n)] - {next} == map[];
  }

  lemma RunPair(s: Tx, start: Event, answer: Event, s': Tx, es: seq<Event>)
    requires Leads(s, start, answer, s') && CanRun(s', es)
    ensures CanRun(s, [start, answer] + es) && Run(s, [start, answer] + es) == Run(s', es)
  {
    hide Step, Enabled;
    assert ([start, answer] + es)[1..] == [answer] + es;
    assert ([answer] + es)[1..] == es;
  }

  ghost predicate Ahead(s: Tx) {
    Live(s) && s.calls == map[] && s.savepoints == [2] && s.db == [1] && !Sublist(s.savepoints, s.db)
  }

  lemma StrayRollback() returns (es: seq<Event>)
    ensures CanRun(At(true, [], 1, [1], 3), es) && Ahead(Run(At(true, [], 1, [1], 3), es))
  {
    Stacks12();
    var s2, s3, s4 := At(true, [], 1, [1], 3), At(true, [2], 2, [1, 2], 4), At(true, [2], 2, [1], 5);
    Creates(true, [], 1, [1], 3);
    RollsBack(true, [2], 2, [1, 2], 4, 1);
    assert Ahead(s4);
    hide Leads, Below, UpTo, Step, Enabled, Ahead, At;
    RunPair(s3, ERollbackTo(1), ERolledBackTo(4, Done), s4, []);
    var last := [ERollbackTo(1), ERolledBackTo(4, Done)] + [];
    RunPair(s2, ECreateSavepoint, ESavepointCreated(3, Done), s3, last);
    es := [ECreateSavepoint, ESavepointCreated(3, Done)] + last;
  }

  /** A caller that names a savepoint no longer on the engine's stack can put the engine ahead: after a RELEASE
      of sp_1 that never reached the database, rolling back to sp_1 drops sp_2 there but not here. */
  lemma StrayNamePutsEngineAhead() returns (es: seq<Event>)
    ensures CanRun(Start(true), es)
    ensures var s := Run(Start(true), es);
      Live(s) && s.calls == map[] && s.savepoints == [2] && s.db == [1] && !Sublist(s.savepoints, s.db)
  {
    hide Leads, Below, UpTo, Step, Enabled, At, CanRun, Run;
    var s0, s1, s2 := At(true, [], 0, [], 1), At(true, [1], 1, [1], 2), At(true, [], 1, [1], 3);
    var last := StrayRollback();
    Stacks12();
    Creates(true, [], 0, [], 1);
    ReleaseFails(true, [1], 1, [1], 2, 1);
    RunPair(s1, EReleaseSavepoint(1), ESavepointReleased(2, Failed(false, false)), s2, last);
    var middle := [EReleaseSavepoint(1), ESavepointReleased(2, Failed(false, false))] + last;
    RunPair(s0, ECreateSavepoint, ESavepointCreated(1, Done), s1, middle);
    var rest := [ECreateSavepoint, ESavepointCreated(1, Done)] + middle;
    es := RunBegins(true, rest);
  }

  lemma StatementFails(auto: bool, mem: seq<nat>, counter: nat, db: seq<nat>, next: Call)
    requires !auto
    ensures Leads(At(auto, mem, counter, db, next), EExecute, EExecuted(next, Failed(false, true)), At(auto, mem, counter, [], next + 1))
  {
    assert map[next := Statement] - {next} == map[];
  }

  lemma RunBegins(auto: bool, rest: seq<Event>) returns (es: seq<Event>)
    requires CanRun(At(auto, [], 0, [], 1), rest)
    ensures CanRun(Start(auto), es) && Run(Start(auto), es) == Run(At(auto, [], 0, [], 1), rest)
  {
    hide Step, Enabled, At;
    Begins(auto);
    es := [EBegun(true, false, false)] + rest;
    assert es[1..] == rest;
  }

  lemma LeftOpen(s: Tx)
    requires s == At(false, [1], 1, [], 3)
    ensures CanRun(s, []) && Run(s, []) == s
    ensures Live(s) && s.calls == map[] && s.savepoints == [1] && s.db == [] && !Sublist(s.savepoints, s.db)
  {
  }

  /** Without automatic rollback a deadlock can leave the transaction open, with a savepoint the database has dropped. */
  lemma WipeLeavesItOpen() returns (es: seq<Event>)
    ensures CanRun(Start(false), es)
    ensures var s := Run(Start(false), es);
      Live(s) && s.calls == map[] && s.savepoints == [1] && s.db == [] && !Sublist(s.savepoints, s.db)
  {
    hide Leads, Step, Enabled, At, Live, Sublist, CanRun, Run;
    var s0, s1, s2 := At(false, [], 0, [], 1), At(false, [1], 1, [1], 2), At(false, [1], 1, [], 3);
    Stacks12();
    Creates(false, [], 0, [], 1);
    StatementFails(false, [1], 1, [1], 2);
    LeftOpen(s2);
    RunPair(s1, EExecute, EExecuted(2, Failed(false, true)), s2, []);
    var last := [EExecute, EExecuted(2, Failed(false, true))] + [];
    RunPair(s0, ECreateSavepoint, ESavepointCreated(1, Done), s1, last);
    var rest := [ECreateSavepoint, ESavepointCreated(1, Done)] + last;
    es := RunBegins(false, rest);
  }

  lemma Stacks12()
    ensures [] + [1] == [1] && [] + [2] == [2] && [1] + [2] == [1, 2]
    ensures Below([1], 1) == [] && UpTo([2], 1) == [2] && UpTo([1, 2], 1) == [1]
    ensures !Sublist([2], [1])
  {
    assert [1, 2][..1] == [1] && [1][..0] == [];
  }

  lemma Begins(auto: bool)
    ensures Enabled(Start(auto), EBegun(true, false, false))
    ensures Step(Start(auto), EBegun(true, false, false)) == At(auto, [], 0, [], 1)
  {
    assert map[0 := Begin] - {0} == map[];
  }
}
