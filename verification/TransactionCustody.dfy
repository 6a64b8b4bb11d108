/** The reserved client and its single connection, over every interleaving. */
module TransactionCustody {
  import opened TransactionModel

  /** A statement of `execute` or of the savepoint methods, its automatic rollback included. */
  predicate HasTurn(w: Wire) {
    w.Statement? || w.Undo? || w.Abort? || w.Open? || w.Close? || w.Rewind?
  }

  /** A call that will take the record out of the registry. */
  predicate Ends(w: Wire) {
    w.Commit? || w.Rollback? || w.Abort? || w.TimeoutRollback?
  }

  function Turns(calls: map<Call, Wire>): set<Call> {
    set c | c in calls && HasTurn(calls[c])
  }

  function Enders(calls: map<Call, Wire>): set<Call> {
    set c | c in calls && Ends(calls[c])
  }

  function One(b: bool): nat {
    if b then 1 else 0
  }

  ghost predicate Numbered(calls: map<Call, Wire>, next: Call) {
    forall c :: c in calls ==> c < next && (calls[c] == Callback ==> c == 0) && calls[c] != Begin
  }

  /** Before the record exists there is only the BEGIN, and if that fails the client has been released. */
  ghost predicate Unborn(s: Tx) {
    && !s.registered && !s.busy && !s.timer && !s.acked && s.commitBy == {} && s.savepoints == [] && s.spCounter == 0
    && s.db == [] && s.result != Resolved && !s.threw && 0 < s.nextCall
    && ((s.given == [] && s.calls == map[0 := Begin] && s.result == Pending) || (s.given == [Released] && s.calls == map[]))
  }

  ghost predicate Kept(calls: map<Call, Wire>, next: Call, registered: bool, given: seq<Custody>, state: Status,
                       timer: bool, busy: bool) {
    && Numbered(calls, next)
    && |given| == One(!registered)
    && |Turns(calls)| == One(busy)
    && |Enders(calls)| == One(registered && state != ACTIVE)
    && (timer ==> registered && state == ACTIVE)
    && (forall c :: c in calls && calls[c] == TimeoutRollback ==> !busy)
    && (registered ==> state != COMMITTED && state != ROLLBACK)
  }

  ghost predicate Recorded(s: Tx) {
    Kept(s.calls, s.nextCall, s.registered, s.given, s.state, s.timer, s.busy)
  }

  ghost predicate Inv(s: Tx) {
    if s.recorded then Recorded(s) else Unborn(s)
  }

  // ----- counting calls -----

  lemma Remove(calls: map<Call, Wire>, c: Call)
    requires c in calls
    ensures |Turns(calls - {c})| == |Turns(calls)| - One(HasTurn(calls[c]))
    ensures |Enders(calls - {c})| == |Enders(calls)| - One(Ends(calls[c]))
  {
    assert Turns(calls - {c}) == Turns(calls) - {c};
    assert Enders(calls - {c}) == Enders(calls) - {c};
  }

  lemma Add(calls: map<Call, Wire>, c: Call, w: Wire)
    requires c !in calls
    ensures |Turns(calls[c := w])| == |Turns(calls)| + One(HasTurn(w))
    ensures |Enders(calls[c := w])| == |Enders(calls)| + One(Ends(w))
  {
    Remove(calls[c := w], c);
    assert calls[c := w] - {c} == calls;
  }

  lemma Replace(calls: map<Call, Wire>, c: Call, w: Wire)
    requires c in calls
    ensures |Turns(calls[c := w])| == |Turns(calls)| - One(HasTurn(calls[c])) + One(HasTurn(w))
    ensures |Enders(calls[c := w])| == |Enders(calls)| - One(Ends(calls[c])) + One(Ends(w))
  {
    Remove(calls, c);
    Add(calls - {c}, c, w);
    assert (calls - {c})[c := w] == calls[c := w];
  }

  lemma TurnCounts(calls: map<Call, Wire>, c: Call)
    requires c in calls
    ensures HasTurn(calls[c]) ==> |Turns(calls)| >= 1
    ensures Ends(calls[c]) ==> |Enders(calls)| >= 1
  {
    Remove(calls, c);
  }

  // ----- every step -----

  lemma AbortFromKeeps(s: Tx, c: Call)
    requires s.recorded && Recorded(s) && c in s.calls && HasTurn(s.calls[c]) && !Ends(s.calls[c])
    ensures Recorded(AbortFrom(s, c))
  {
    hide Turns, Enders;
    TurnCounts(s.calls, c);
    Replace(s.calls, c, Abort);
    Remove(s.calls, c);
  }

  lemma EndTurnKeeps(s: Tx, c: Call)
    requires s.recorded && Recorded(s) && c in s.calls && HasTurn(s.calls[c]) && !Ends(s.calls[c])
    ensures Recorded(EndTurn(s, c))
  {
    hide Turns, Enders;
    TurnCounts(s.calls, c);
    Remove(s.calls, c);
  }

  lemma LaunchKeeps(s: Tx, w: Wire)
    requires s.recorded && Recorded(s) && Live(s) && !s.busy && HasTurn(w) && !Ends(w)
    ensures Recorded(Launch(s.(busy := true), w))
  {
    hide Turns, Enders;
    Add(s.calls, s.nextCall, w);
    forall c | c in s.calls && s.calls[c] == TimeoutRollback ensures false {
      TurnCounts(s.calls, c);
    }
  }

  lemma LeaveActiveKeeps(s: Tx, w: Wire, state: Status)
    requires s.recorded && Recorded(s) && Live(s) && Ends(w) && !HasTurn(w) && (w == TimeoutRollback ==> !s.busy)
    requires state == COMMITTING || state == ROLLING_BACK || state == TIMEOUT
    ensures Recorded(Launch(s.(state := state, timer := false), w))
  {
    hide Turns, Enders;
    Add(s.calls, s.nextCall, w);
  }

  lemma EndKeeps(s: Tx, c: Call, state: Status, custody: Custody)
    requires s.recorded && Recorded(s) && c in s.calls && Ends(s.calls[c])
    ensures s.registered && s.state != ACTIVE
    ensures Kept(s.calls - {c}, s.nextCall, false, s.given + [custody], state, s.timer, s.busy && s.calls[c] != Abort)
  {
    hide Turns, Enders;
    TurnCounts(s.calls, c);
    Remove(s.calls, c);
  }

  lemma CallbackKeeps(s: Tx, threw: bool)
    requires s.recorded && Recorded(s) && Awaits(s, 0, Callback)
    ensures Recorded(CallbackEnded(s, threw)) && CallbackEnded(s, threw).recorded
  {
    hide Kept;
    if Live(s) {
      CallbackGoesOn(s, if threw then Rollback else Commit, if threw then ROLLING_BACK else COMMITTING);
    } else {
      CallbackStops(s);
    }
  }

  lemma CallbackGoesOn(s: Tx, w: Wire, state: Status)
    requires s.recorded && Recorded(s) && Awaits(s, 0, Callback) && Live(s) && (w == Rollback || w == Commit)
    requires state == ROLLING_BACK || state == COMMITTING
    ensures Kept(s.calls[0 := w], s.nextCall, s.registered, s.given, state, false, s.busy)
  {
    hide Turns, Enders;
    Replace(s.calls, 0, w);
  }

  lemma CallbackStops(s: Tx)
    requires s.recorded && Recorded(s) && Awaits(s, 0, Callback)
    ensures Kept(s.calls - {0}, s.nextCall, s.registered, s.given, s.state, s.timer, s.busy)
  {
    hide Turns, Enders;
    Remove(s.calls, 0);
  }

  lemma BegunKeeps(s: Tx, ok: bool, timed: bool, callback: bool)
    requires Inv(s) && Awaits(s, 0, Begin)
    ensures Inv(Begun(s, ok, timed, callback))
  {
    assert s.calls == map[0 := Begin] && s.calls - {0} == map[];
    assert Turns(map[]) == {} && Enders(map[]) == {};
    assert Turns(map[0 := Callback]) == {} && Enders(map[0 := Callback]) == {};
  }

  lemma StepKeepsRecorded(s: Tx, e: Event)
    requires s.recorded && Recorded(s) && Enabled(s, e)
    ensures Recorded(Step(s, e)) && Step(s, e).recorded
  {
    hide Recorded, Step;
    if IsAnswer(e) { AnswerKeeps(s, e); } else { StartKeeps(s, e); }
  }

  lemma StepKeeps(s: Tx, e: Event)
    requires Inv(s) && Enabled(s, e)
    ensures Inv(Step(s, e))
  {
    hide Turns, Enders, Recorded, IndexOf;
    if !s.recorded {
      if e.EBegun? { BegunKeeps(s, e.ok, e.timed, e.callback); }
      assert Inv(Step(s, e));
    } else {
      if IsAnswer(e) { AnswerKeeps(s, e); } else { StartKeeps(s, e); }
    }
  }

  lemma NotBegin(s: Tx)
    requires Recorded(s)
    ensures !Awaits(s, 0, Begin)
  {
  }

  predicate IsAnswer(e: Event) {
    e.EBegun? || e.ECallbackEnded? || e.EExecuted? || e.EUndone? || e.EAborted? || e.ESavepointCreated? ||
    e.ESavepointReleased? || e.ERolledBackTo? || e.ECommitEnded? || e.ERollbackEnded? || e.ETimeoutEnded?
  }

  lemma StartKeeps(s: Tx, e: Event)
    requires s.recorded && Recorded(s) && Enabled(s, e) && !IsAnswer(e)
    ensures Recorded(Step(s, e)) && Step(s, e).recorded
  {
    hide Kept, IndexOf;
    match e
    case EExecute => if Live(s) && !s.busy { LaunchKeeps(s, Statement); }
    case ECreateSavepoint =>
      if Live(s) && !s.busy { LaunchKeeps(s.(spCounter := s.spCounter + 1), Open(s.spCounter + 1)); }
    case EReleaseSavepoint(n) => if Live(s) && !s.busy { LaunchKeeps(s, Close(n)); }
    case ERollbackTo(n) => if Live(s) && !s.busy { LaunchKeeps(s, Rewind(n)); }
    case ECommit => if Live(s) { LeaveActiveKeeps(s.(commitBy := s.commitBy + {s.nextCall}), Commit, COMMITTING); }
    case ERollback => if Live(s) { LeaveActiveKeeps(s, Rollback, ROLLING_BACK); }
    case ETimeout => TimeoutKeeps(s);
  }

  lemma AnswerKeeps(s: Tx, e: Event)
    requires s.recorded && Recorded(s) && Enabled(s, e) && IsAnswer(e)
    ensures Recorded(Step(s, e)) && Step(s, e).recorded
  {
    hide Kept, Undone, Aborted, CommitEnded, RollbackEnded, TimeoutEnded, CallbackEnded, Executed, SavepointCreated,
      SavepointReleased, RolledBackTo;
    match e
    case EBegun(_, _, _) => NotBegin(s); assert false;
    case ECallbackEnded(threw) => CallbackKeeps(s, threw);
    case EExecuted(c, r) => ExecutedKeeps(s, c, r);
    case EUndone(c, r) => UndoneKeeps(s, c, r);
    case ESavepointCreated(c, r) => SavepointAnswerKeeps(s, c, r);
    case ESavepointReleased(c, r) => SavepointAnswerKeeps(s, c, r);
    case ERolledBackTo(c, r) => SavepointAnswerKeeps(s, c, r);
    case EAborted(c, ok) => RolledBackKeeps(s, c, ok);
    case ECommitEnded(c, ok) => OtherwiseEndedKeeps(s, c, ok);
    case ERollbackEnded(c, ok) => RolledBackKeeps(s, c, ok);
    case ETimeoutEnded(c, ok) => OtherwiseEndedKeeps(s, c, ok);
  }

  lemma UndoneKeeps(s: Tx, c: Call, r: Reply)
    requires s.recorded && Recorded(s) && c in s.calls && s.calls[c].Undo?
    ensures Recorded(Undone(s, c, r)) && Undone(s, c, r).recorded
  {
    hide Kept, UpTo;
    var s' := s.(db := Wiped(if Applied(r) then UpTo(s.db, s.calls[c].savepoint) else s.db, r));
    EndTurnKeeps(s', c);
    AbortFromKeeps(s', c);
  }

  lemma RolledBackKeeps(s: Tx, c: Call, ok: bool)
    requires s.recorded && Recorded(s) && c in s.calls
    ensures s.calls[c] == Abort ==> Recorded(Aborted(s, c, ok)) && Aborted(s, c, ok).recorded
    ensures s.calls[c] == Rollback ==> Recorded(RollbackEnded(s, c, ok)) && RollbackEnded(s, c, ok).recorded
  {
    hide Kept;
    if s.calls[c] == Abort || s.calls[c] == Rollback {
      EndKeeps(s, c, if ok then ROLLBACK else s.state, if ok then Released else Destroyed);
      AbortHasTurn(s, c);
    }
  }

  lemma OtherwiseEndedKeeps(s: Tx, c: Call, ok: bool)
    requires s.recorded && Recorded(s) && c in s.calls
    ensures s.calls[c] == Commit ==> Recorded(CommitEnded(s, c, ok)) && CommitEnded(s, c, ok).recorded
    ensures s.calls[c] == TimeoutRollback ==> Recorded(TimeoutEnded(s, c, ok)) && TimeoutEnded(s, c, ok).recorded
  {
    hide Kept;
    if s.calls[c] == Commit {
      EndKeeps(s, c, if ok then COMMITTED else s.state, Released);
    } else if s.calls[c] == TimeoutRollback {
      EndKeeps(s, c, s.state, if ok then Released else Destroyed);
    }
  }

  lemma SavepointAnswerKeeps(s: Tx, c: Call, r: Reply)
    requires s.recorded && Recorded(s) && c in s.calls
    ensures s.calls[c].Open? ==> Recorded(SavepointCreated(s, c, r)) && SavepointCreated(s, c, r).recorded
    ensures s.calls[c].Close? ==> Recorded(SavepointReleased(s, c, r)) && SavepointReleased(s, c, r).recorded
    ensures s.calls[c].Rewind? ==> Recorded(RolledBackTo(s, c, r)) && RolledBackTo(s, c, r).recorded
  {
    hide Kept, UpTo, Below;
    if HasTurn(s.calls[c]) && !Ends(s.calls[c]) {
      EndTurnKeeps(s, c);
    }
  }

  lemma AbortHasTurn(s: Tx, c: Call)
    requires Recorded(s) && c in s.calls
    ensures s.calls[c] == Abort ==> s.busy
  {
    TurnCounts(s.calls, c);
  }

  lemma ExecutedKeeps(s: Tx, c: Call, r: Reply)
    requires s.recorded && Recorded(s) && Awaits(s, c, Statement)
    ensures Recorded(Executed(s, c, r)) && Executed(s, c, r).recorded
  {
    hide Turns, Enders, IndexOf;
    var s' := s.(db := Wiped(s.db, r));
    assert Recorded(s');
    EndTurnKeeps(s', c);
    AbortFromKeeps(s', c);
    if s.savepoints != [] {
      Replace(s.calls, c, Undo(s.savepoints[|s.savepoints| - 1]));
    }
  }

  lemma TimeoutKeeps(s: Tx)
    requires s.recorded && Recorded(s)
    ensures Recorded(TimeoutFires(s))
  {
    if Live(s) {
      if !s.busy {
        LeaveActiveKeeps(s, TimeoutRollback, TIMEOUT);
      } else {
        hide Turns, Enders;
      }
    }
  }

  // ----- transaction(fn) -----

  /** What the call of `transaction(fn)` stands for, whatever else happens to the transaction. */
  ghost predicate Promise(s: Tx) {
    && (forall c :: c in s.calls && s.calls[c] == Commit ==> c in s.commitBy)
    && (forall c :: c in s.commitBy ==> c < s.nextCall)
    && (0 in s.calls ==> s.result == Pending)
    && (0 in s.calls && s.calls[0] == Callback ==> 0 !in s.commitBy && !s.threw)
    && (s.result == Resolved ==> s.acked && 0 in s.commitBy && !s.threw && s.state == COMMITTED && !s.registered)
    && (s.threw ==> 0 !in s.commitBy)
    && (s.acked ==> s.commitBy != {})
    && (0 < s.nextCall)
  }

  ghost predicate Onward(s: Tx, s': Tx) {
    && (s.state != ACTIVE ==> s'.state != ACTIVE)
    && (!s.registered ==> !s'.registered)
    && (s'.given == s.given || (s.given == [] && |s'.given| == 1))
    && s'.autoRollback == s.autoRollback
  }

  ghost predicate NothingNew(calls: map<Call, Wire>, calls': map<Call, Wire>) {
    && (forall c :: c in calls' && (calls'[c] == Commit || calls'[c] == Callback) ==> c in calls && calls[c] == calls'[c])
    && (0 in calls' ==> 0 in calls)
  }

  lemma NothingNewMoves(calls: map<Call, Wire>, c: Call, w: Wire)
    requires w != Commit && w != Callback
    ensures NothingNew(calls, calls)
    ensures NothingNew(calls, calls - {c})
    ensures c != 0 || c in calls ==> NothingNew(calls, calls[c := w])
  {
  }

  /** A step that concerns neither a COMMIT nor the callback. */
  ghost predicate Aside(s: Tx, s': Tx) {
    && s'.commitBy == s.commitBy && s'.acked == s.acked && s'.result == s.result && s'.threw == s.threw
    && s.nextCall <= s'.nextCall && s'.recorded
    && NothingNew(s.calls, s'.calls)
    && (s.registered || s.state == ACTIVE || (s'.state == s.state && !s'.registered))
  }

  lemma AsideKeepsPromise(s: Tx, s': Tx)
    requires Promise(s) && Aside(s, s')
    ensures Promise(s')
  {
  }

  lemma StartsAside(s: Tx, e: Event)
    requires s.recorded && Recorded(s) && 0 < s.nextCall && Enabled(s, e) && !IsAnswer(e) && e != ECommit
    ensures Aside(s, Step(s, e))
  {
    hide NothingNew, Kept, UpTo, Below;
    if e.EExecute? || e.ERollback? || e.ETimeout? {
      PlainStartsAside(s, e);
    } else {
      var w := match e
        case ECreateSavepoint => Open(s.spCounter + 1)
        case EReleaseSavepoint(n) => Close(n)
        case ERollbackTo(n) => Rewind(n)
        case _ => TimeoutRollback;
      NothingNewMoves(s.calls, s.nextCall, w);
    }
  }

  lemma PlainStartsAside(s: Tx, e: Event)
    requires s.recorded && Recorded(s) && 0 < s.nextCall && (e.EExecute? || e.ERollback? || e.ETimeout?)
    ensures Enabled(s, e) ==> Aside(s, Step(s, e))
  {
    hide NothingNew, Kept, UpTo, Below;
    NothingNewMoves(s.calls, s.nextCall, match e case EExecute => Statement case ERollback => Rollback case _ => TimeoutRollback);
  }

  lemma EndTurnAside(s: Tx, c: Call)
    requires s.recorded && c in s.calls
    ensures Aside(s, EndTurn(s, c)) && Onward(s, EndTurn(s, c))
  {
    hide NothingNew;
    NothingNewMoves(s.calls, c, Abort);
  }

  lemma AbortFromAside(s: Tx, c: Call)
    requires s.recorded && c in s.calls
    ensures Aside(s, AbortFrom(s, c)) && Onward(s, AbortFrom(s, c))
  {
    hide NothingNew, EndTurn;
    NothingNewMoves(s.calls, c, Abort);
    EndTurnAside(s, c);
  }

  lemma StatementAside(s: Tx, c: Call, r: Reply)
    requires s.recorded && Awaits(s, c, Statement)
    ensures Aside(s, Executed(s, c, r)) && Onward(s, Executed(s, c, r))
  {
    hide NothingNew, EndTurn, AbortFrom;
    if r == Done {
      EndTurnAside(s, c);
    } else {
      var s' := s.(db := Wiped(s.db, r));
      EndTurnAside(s', c);
      AbortFromAside(s', c);
      if s.savepoints != [] {
        NothingNewMoves(s.calls, c, Undo(s.savepoints[|s.savepoints| - 1]));
      }
    }
  }

  lemma UndoneAside(s: Tx, c: Call, r: Reply)
    requires s.recorded && c in s.calls && s.calls[c].Undo?
    ensures Aside(s, Undone(s, c, r)) && Onward(s, Undone(s, c, r))
  {
    hide NothingNew, UpTo, EndTurn, AbortFrom;
    var s' := s.(db := Wiped(if Applied(r) then UpTo(s.db, s.calls[c].savepoint) else s.db, r));
    EndTurnAside(s', c);
    AbortFromAside(s', c);
  }

  lemma SavepointAside(s: Tx, c: Call, r: Reply)
    requires s.recorded && c in s.calls
    ensures s.calls[c].Open? ==> Aside(s, SavepointCreated(s, c, r))
    ensures s.calls[c].Close? ==> Aside(s, SavepointReleased(s, c, r))
    ensures s.calls[c].Rewind? ==> Aside(s, RolledBackTo(s, c, r))
  {
    hide NothingNew, EndTurn, Onward, UpTo, Below;
    EndTurnAside(s, c);
  }

  lemma AnswersAside(s: Tx, e: Event)
    requires s.recorded && Enabled(s, e)
    requires e.EExecuted? || e.EUndone? || e.ESavepointCreated? || e.ESavepointReleased? || e.ERolledBackTo?
    ensures Aside(s, Step(s, e))
  {
    hide Aside, Onward, Executed, Undone, SavepointCreated, SavepointReleased, RolledBackTo;
    if e.EExecuted? {
      StatementAside(s, e.c, e.r);
    } else if e.EUndone? {
      UndoneAside(s, e.c, e.r);
    } else {
      SavepointAside(s, e.c, e.r);
    }
  }

  lemma EndsAside(s: Tx, e: Event)
    requires s.recorded && Recorded(s) && Enabled(s, e)
    requires e.EAborted? || e.ETimeoutEnded? || (e.ERollbackEnded? && e.c != 0)
    ensures Aside(s, Step(s, e))
  {
    hide UpTo, Below, Turns, Enders;
    TurnCounts(s.calls, e.c);
  }

  lemma CallbackPromise(s: Tx, threw: bool)
    requires s.recorded && Promise(s) && Awaits(s, 0, Callback)
    ensures Promise(CallbackEnded(s, threw))
  {
  }

  lemma RollbackPromise(s: Tx, ok: bool)
    requires s.recorded && Recorded(s) && Promise(s) && Awaits(s, 0, Rollback)
    ensures Promise(RollbackEnded(s, 0, ok))
  {
    hide Turns, Enders;
    TurnCounts(s.calls, 0);
  }

  lemma CommitPromise(s: Tx, e: Event)
    requires s.recorded && Recorded(s) && Promise(s) && Enabled(s, e) && (e == ECommit || e.ECommitEnded?)
    ensures Promise(Step(s, e))
  {
    hide Turns, Enders;
    if e.ECommitEnded? { TurnCounts(s.calls, e.c); }
  }

  lemma BegunPromise(s: Tx, e: Event)
    requires Unborn(s) && Promise(s) && Enabled(s, e)
    ensures Promise(Step(s, e))
    ensures e.EBegun? || Step(s, e) == s.(timer := Step(s, e).timer)
  {
    hide Begun;
    if e.EBegun? { BegunWithPromise(s, e.ok, e.timed, e.callback); }
  }

  lemma BegunWithPromise(s: Tx, ok: bool, timed: bool, callback: bool)
    requires Unborn(s) && Promise(s) && Awaits(s, 0, Begin)
    ensures Promise(Begun(s, ok, timed, callback))
  {
  }

  lemma PromiseStep(s: Tx, e: Event)
    requires Inv(s) && Promise(s) && Enabled(s, e)
    ensures Promise(Step(s, e))
  {
    if !s.recorded {
      BegunPromise(s, e);
    } else if e.EBegun? {
      NotBegin(s);
      assert false;
    } else if e.ECallbackEnded? {
      CallbackPromise(s, e.threw);
    } else if e.ERollbackEnded? && e.c == 0 {
      RollbackPromise(s, e.ok);
    } else if e == ECommit || e.ECommitEnded? {
      CommitPromise(s, e);
    } else {
      OtherwiseAside(s, e);
      AsideKeepsPromise(s, Step(s, e));
    }
    hide Promise, Recorded, Aside;
  }

  lemma OtherwiseAside(s: Tx, e: Event)
    requires s.recorded && Recorded(s) && 0 < s.nextCall && Enabled(s, e)
    requires !e.EBegun? && !e.ECallbackEnded? && !(e.ERollbackEnded? && e.c == 0) && e != ECommit && !e.ECommitEnded?
    ensures Aside(s, Step(s, e))
  {
    hide Recorded, Step, Aside;
    if !IsAnswer(e) {
      StartsAside(s, e);
    } else if e.EAborted? || e.ETimeoutEnded? || e.ERollbackEnded? {
      EndsAside(s, e);
    } else {
      AnswersAside(s, e);
    }
  }

  // ----- every run -----

  ghost predicate Reached(s: Tx) {
    exists auto, es :: Reaches(auto, es, s)
  }

  ghost predicate Reaches(auto: bool, es: seq<Event>, s: Tx) {
    CanRun(Start(auto), es) && s == Run(Start(auto), es)
  }

  lemma {:induction false} RunKeeps(s: Tx, es: seq<Event>)
    requires Inv(s) && Promise(s) && CanRun(s, es)
    ensures Inv(Run(s, es)) && Promise(Run(s, es))
    decreases |es|
  {
    hide Inv, Promise, Step, Enabled;
    if es != [] {
      StepKeeps(s, es[0]);
      PromiseStep(s, es[0]);
      RunKeeps(Step(s, es[0]), es[1..]);
    }
  }

  lemma ReachedKeeps(s: Tx)
    requires Reached(s)
    ensures Inv(s) && Promise(s)
  {
    var auto, es :| Reaches(auto, es, s);
    RunKeeps(Start(auto), es);
  }

  lemma ReachedStep(s: Tx, e: Event)
    requires Reached(s) && Enabled(s, e)
    ensures Reached(Step(s, e))
  {
    hide Step, Enabled, Run, CanRun;
    var auto, es :| Reaches(auto, es, s);
    RunExtends(Start(auto), es, e);
    assert Reaches(auto, es + [e], Step(s, e));
  }

  lemma {:induction false} RunExtends(s: Tx, es: seq<Event>, e: Event)
    requires CanRun(s, es) && Enabled(Run(s, es), e)
    ensures CanRun(s, es + [e]) && Run(s, es + [e]) == Step(Run(s, es), e)
    decreases |es|
  {
    hide Step, Enabled;
    if es == [] {
      assert es + [e] == [e];
      assert Run(Step(s, e), []) == Step(s, e);
    } else {
      RunExtends(Step(s, es[0]), es[1..], e);
      assert (es + [e])[1..] == es[1..] + [e];
    }
  }

  /** The client is given back at most once; while the registry has the record the client is still reserved, and
      not longer. When no call is in flight it is either still reserved by an ACTIVE transaction or was given
      back exactly once. */
  lemma ClientGivenBackOnce(s: Tx)
    requires Reached(s)
    ensures |s.given| <= 1
    ensures s.recorded ==> (s.registered <==> s.given == [])
    ensures s.calls == map[] ==> if s.given == [] then s.registered && s.state == ACTIVE else |s.given| == 1
  {
    ReachedKeeps(s);
    assert Enders(map[]) == {};
  }

  lemma StartsOnward(s: Tx, e: Event)
    requires s.recorded && Recorded(s) && Enabled(s, e) && !IsAnswer(e)
    ensures Onward(s, Step(s, e))
  {
    hide UpTo, Below, Turns, Enders;
  }

  lemma EndsOnward(s: Tx, e: Event)
    requires s.recorded && Recorded(s) && Enabled(s, e)
    requires e.EAborted? || e.ECommitEnded? || e.ERollbackEnded? || e.ETimeoutEnded?
    ensures Onward(s, Step(s, e))
  {
    hide Turns, Enders;
    TurnCounts(s.calls, e.c);
  }

  lemma CallbackOnward(s: Tx, threw: bool)
    ensures Onward(s, CallbackEnded(s, threw))
  {
  }

  lemma SavepointOnward(s: Tx, e: Event)
    requires s.recorded && Enabled(s, e) && (e.ESavepointCreated? || e.ESavepointReleased? || e.ERolledBackTo?)
    ensures Onward(s, Step(s, e))
  {
    hide UpTo, Below;
  }

  lemma AnswersOnward(s: Tx, e: Event)
    requires s.recorded && Enabled(s, e) && IsAnswer(e)
    requires !e.EBegun? && !e.EAborted? && !e.ECommitEnded? && !e.ERollbackEnded? && !e.ETimeoutEnded?
    ensures Onward(s, Step(s, e))
  {
    hide Onward, Aside, Executed, Undone, CallbackEnded, SavepointCreated, SavepointReleased, RolledBackTo;
    if e.ECallbackEnded? {
      CallbackOnward(s, e.threw);
    } else if e.EExecuted? {
      StatementAside(s, e.c, e.r);
    } else if e.EUndone? {
      UndoneAside(s, e.c, e.r);
    } else {
      SavepointOnward(s, e);
    }
  }

  /** A transaction that has left ACTIVE never returns there, nor into the registry; and custody changes once. */
  lemma NeverActiveAgain(s: Tx, e: Event)
    requires Reached(s) && Enabled(s, e) && s.recorded
    ensures s.state != ACTIVE ==> Step(s, e).state != ACTIVE
    ensures !s.registered ==> !Step(s, e).registered
    ensures Step(s, e).given == s.given || (s.given == [] && |Step(s, e).given| == 1)
  {
    hide Reached, Step;
    ReachedKeeps(s);
    AnyStepOnward(s, e);
  }

  lemma AnyStepOnward(s: Tx, e: Event)
    requires s.recorded && Recorded(s) && Enabled(s, e)
    ensures Onward(s, Step(s, e))
  {
    hide Recorded, Step, Onward;
    if e.EBegun? {
      NotBegin(s);
      assert false;
    } else if !IsAnswer(e) {
      StartsOnward(s, e);
    } else if e.EAborted? || e.ECommitEnded? || e.ERollbackEnded? || e.ETimeoutEnded? {
      EndsOnward(s, e);
    } else {
      AnswersOnward(s, e);
    }
  }

  /** At most one statement is in flight, and exactly while the record is busy. */
  lemma OneStatementAtATime(s: Tx, a: Call, b: Call)
    requires Reached(s) && s.recorded && a in s.calls && HasTurn(s.calls[a])
    ensures s.busy
    ensures b in s.calls && HasTurn(s.calls[b]) ==> a == b
  {
    ReachedKeeps(s);
    TurnCounts(s.calls, a);
    if b in s.calls && a != b {
      Remove(s.calls, a);
      if HasTurn(s.calls[b]) {
        TurnCounts(s.calls - {a}, b);
      }
    }
  }

  /** The timeout keeps its hands off a connection in use: it sends ROLLBACK only with no statement in flight,
      none starts while that ROLLBACK is, and a client with a statement in flight is destroyed, not released. */
  lemma TimeoutSparesStatements(s: Tx, c: Call, t: Call)
    requires Reached(s) && s.recorded && c in s.calls && HasTurn(s.calls[c])
    ensures t in s.calls ==> s.calls[t] != TimeoutRollback
    ensures s.timer ==> var s' := Step(s, ETimeout);
      s'.given == s.given + [Destroyed] && s'.calls == s.calls
  {
    hide Turns, Enders;
    ReachedKeeps(s);
    TurnCounts(s.calls, c);
  }

  /** A resolved `transaction(fn)` means the database confirmed the COMMIT that call sent for this record. If
      `fn` throws, the call never sends one. */
  lemma ResolvedMeansCommitted(s: Tx)
    requires Reached(s)
    ensures s.result == Resolved ==> s.acked && 0 in s.commitBy && s.state == COMMITTED
    ensures s.threw ==> 0 !in s.commitBy && s.result != Resolved
  {
    ReachedKeeps(s);
  }

  lemma CommitSenders(s: Tx, e: Event)
    requires Inv(s) && Promise(s) && Enabled(s, e) && e != ECommit
    ensures Step(s, e).commitBy <= s.commitBy + {0}
  {
    if !s.recorded {
      BegunPromise(s, e);
      hide Promise;
    } else if !e.EBegun? && !e.ECallbackEnded? && !e.ERollbackEnded? && !e.ECommitEnded? {
      OtherwiseAside(s, e);
      hide Step, Promise;
    } else if e.EBegun? {
      NotBegin(s);
      assert false;
    } else {
      EndingsCommit(s, e);
      hide Step, Recorded, Promise;
    }
  }

  lemma EndingsCommit(s: Tx, e: Event)
    requires Enabled(s, e) && (e.ECallbackEnded? || e.ERollbackEnded? || e.ECommitEnded?)
    ensures Step(s, e).commitBy <= s.commitBy + {0}
  {
    hide CallbackEnded, CommitEnded, RollbackEnded;
  }

  lemma {:induction false} OnlyTheCallbackCommits(s: Tx, es: seq<Event>)
    requires Inv(s) && Promise(s) && CanRun(s, es) && s.commitBy <= {0} && ECommit !in es
    ensures Run(s, es).commitBy <= {0}
    decreases |es|
  {
    hide Inv, Promise, Step, Enabled;
    if es != [] {
      StepKeeps(s, es[0]);
      PromiseStep(s, es[0]);
      CommitSenders(s, es[0]);
      assert es[0] in es;
      OnlyTheCallbackCommits(Step(s, es[0]), es[1..]);
    }
  }

  /** When nobody commits by hand and `fn` throws, COMMIT is never sent at all. */
  lemma ThrowNeverCommits(auto: bool, es: seq<Event>)
    requires CanRun(Start(auto), es) && ECommit !in es && Run(Start(auto), es).threw
    ensures Run(Start(auto), es).commitBy == {} && !Run(Start(auto), es).acked
  {
    RunKeeps(Start(auto), es);
    OnlyTheCallbackCommits(Start(auto), es);
  }
}
