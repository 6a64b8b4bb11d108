/** `tx.transaction(fn)` inside a transaction: savepoint blocks, nested to any depth, run one statement at a time.

    A script says what the callbacks do, what the database answers, and what befalls the transaction from outside at
    each await: the timeout, or a commit or rollback by somebody else. The script is arbitrary, so a result about every
    script is about every callback, every pattern of failures and every moment at which the transaction may end. */
module TransactionBlocks {
  import opened TransactionModel

  /** What comes back from the database, and what happens while it is awaited. */
  datatype Awaited = Awaited(meanwhile: seq<Event>, reply: Reply)

  datatype Action =
    | Exec(statement: Awaited, undo: Awaited, abort: Awaited)
    | Pause(meanwhile: seq<Event>)   // the callback awaits something else
    | Block(open: Awaited, body: seq<Action>, throws: bool, rewind: Awaited, close: Awaited)
    | Caught(action: Action)         // the callback catches its error and goes on

  /** The timeout, a commit or a rollback, and their answers. */
  predicate Outside(e: Event) {
    e.ETimeout? || e.ETimeoutEnded? || e.ECommit? || e.ECommitEnded? || e.ERollback? || e.ERollbackEnded?
  }

  /** Those of the events that come from outside and can happen. */
  function Meanwhile(s: Tx, es: seq<Event>): Tx
    decreases |es|
  {
    if es == [] then s
    else Meanwhile(if Outside(es[0]) && Enabled(s, es[0]) then Step(s, es[0]) else s, es[1..])
  }

  predicate Numbered(s: Tx) {
    forall c :: c in s.calls ==> c < s.nextCall
  }

  /** Between statements: the connection is free and savepoint names are taken from the counter. */
  ghost predicate Settled(s: Tx) {
    !s.busy && Numbered(s) && forall x :: x in s.savepoints ==> x <= s.spCounter
  }

  /** `s'` comes after `s` with the same savepoints, unless the transaction has ended. */
  ghost predicate SameStack(s: Tx, s': Tx) {
    && Settled(s')
    && (Live(s') ==> Live(s) && s'.savepoints == s.savepoints)
  }

  // ----- what happens meanwhile -----

  /** A statement, of the callback's own. */
  predicate Own(w: Wire) {
    w.Statement? || w.Undo? || w.Abort? || w.Open? || w.Close? || w.Rewind?
  }

  /** What outside events leave as it was: the stack, the turn and the statement in flight; and the transaction can
      only end. */
  ghost predicate Untouched(s: Tx, s': Tx) {
    && s'.savepoints == s.savepoints && s'.spCounter == s.spCounter && s'.busy == s.busy
    && Numbered(s')
    && (Live(s') ==> Live(s))
    && forall c :: c in s.calls && Own(s.calls[c]) ==> c in s'.calls && s'.calls[c] == s.calls[c]
  }

  lemma OutsideUntouched(s: Tx, e: Event)
    requires Numbered(s) && Outside(e) && Enabled(s, e)
    ensures Untouched(s, Step(s, e))
  {
    hide TimeoutFires, CommitEnded, RollbackEnded, TimeoutEnded, Own;
    match e
    case ETimeout => FiredUntouched(s);
    case ECommit => if Live(s) { } else { }
    case ERollback => if Live(s) { } else { }
    case _ => AnsweredUntouched(s, e);
  }

  lemma FiredUntouched(s: Tx)
    requires Numbered(s)
    ensures Untouched(s, TimeoutFires(s)) && !Live(TimeoutFires(s))
  {
    if !Live(s) {
    } else if s.busy {
    } else {
    }
  }

  lemma AnsweredUntouched(s: Tx, e: Event)
    requires Numbered(s) && Enabled(s, e) && (e.ECommitEnded? || e.ERollbackEnded? || e.ETimeoutEnded?)
    ensures Untouched(s, Step(s, e))
  {
    if s.registered { } else { }
  }

  lemma {:induction false} MeanwhileUntouched(s: Tx, es: seq<Event>)
    requires Numbered(s)
    ensures Untouched(s, Meanwhile(s, es))
    decreases |es|
  {
    hide Own;
    if es != [] {
      var next := if Outside(es[0]) && Enabled(s, es[0]) then Step(s, es[0]) else s;
      if Outside(es[0]) && Enabled(s, es[0]) { OutsideUntouched(s, es[0]); }
      hide Step, Enabled;
      MeanwhileUntouched(next, es[1..]);
    }
  }

  // ----- performing a script -----

  /** The database confirms an operation on a savepoint only if it has it. */
  function Answer(s: Tx, n: nat, r: Reply): Reply {
    if r == Done && n !in s.db then Failed(false, false) else r
  }

  /** What `s` becomes until the answer to the call `c` comes; its statement is still in flight then. */
  function Await(s: Tx, c: Call, meanwhile: seq<Event>): (s': Tx)
    requires Numbered(s) && c in s.calls && Own(s.calls[c])
    ensures Untouched(s, s') && c in s'.calls && s'.calls[c] == s.calls[c]
  {
    MeanwhileUntouched(s, meanwhile);
    Meanwhile(s, meanwhile)
  }

  /** The statement `c` is over, or still has its undo or its abort ahead. */
  ghost predicate Winding(s: Tx, s': Tx, c: Call) {
    && s'.savepoints == s.savepoints && s'.spCounter == s.spCounter && Numbered(s')
    && (Live(s') ==> Live(s))
    && (s'.busy ==> c in s'.calls && (s'.calls[c].Undo? || s'.calls[c] == Abort))
  }

  lemma AbortFromWinds(s: Tx, c: Call)
    requires Numbered(s) && c < s.nextCall
    ensures Winding(s, AbortFrom(s, c), c) && Winding(s, EndTurn(s, c), c)
    ensures AbortFrom(s, c).busy ==> Awaits(AbortFrom(s, c), c, Abort)
  {
    if Live(s) { } else { }
  }

  lemma ExecutedWinds(s: Tx, c: Call, r: Reply)
    requires Numbered(s) && c < s.nextCall
    ensures Winding(s, Executed(s, c, r), c)
  {
    hide AbortFrom, EndTurn;
    AbortFromWinds(s.(db := Wiped(s.db, r)), c);
    AbortFromWinds(s, c);
  }

  lemma UndoneWinds(s: Tx, c: Call, r: Reply)
    requires Numbered(s) && c in s.calls && s.calls[c].Undo?
    ensures Winding(s, Undone(s, c, r), c)
    ensures Undone(s, c, r).busy ==> Awaits(Undone(s, c, r), c, Abort)
  {
    hide AbortFrom, UpTo;
    AbortFromWinds(s.(db := Wiped(if Applied(r) then UpTo(s.db, s.calls[c].savepoint) else s.db, r)), c);
  }

  lemma AbortedWinds(s: Tx, c: Call, ok: bool)
    requires Numbered(s)
    ensures Winding(s, Aborted(s, c, ok), c) && !Aborted(s, c, ok).busy
  {
    if s.registered { } else { }
  }

  lemma SentIsNumbered(s: Tx)
    requires Numbered(s) && Live(s) && !s.busy
    ensures var s' := Execute(s);
      && Numbered(s') && Awaits(s', s.nextCall, Statement)
      && s'.savepoints == s.savepoints && s'.spCounter == s.spCounter
  {
  }

  /** `execute` from its claim to its end. */
  function PerformExec(s: Tx, a: Action): Tx
    requires Numbered(s) && a.Exec?
  {
    if !Live(s) || s.busy then s
    else
      var c := s.nextCall;
      SentIsNumbered(s);
      var sent := Await(Execute(s), c, a.statement.meanwhile);
      ExecutedWinds(sent, c, a.statement.reply);
      PerformAbort(PerformUndo(Executed(sent, c, a.statement.reply), c, a.undo), c, a.abort)
  }

  function PerformUndo(s: Tx, c: Call, undo: Awaited): (s': Tx)
    requires Numbered(s)
    ensures Numbered(s')
  {
    if c !in s.calls || !s.calls[c].Undo? then s
    else
      var s' := Await(s, c, undo.meanwhile);
      UndoneWinds(s', c, Answer(s', s'.calls[c].savepoint, undo.reply));
      Undone(s', c, Answer(s', s'.calls[c].savepoint, undo.reply))
  }

  function PerformAbort(s: Tx, c: Call, abort: Awaited): Tx
    requires Numbered(s)
  {
    if !Awaits(s, c, Abort) then s else Aborted(Await(s, c, abort.meanwhile), c, abort.reply == Done)
  }

  function PerformOpen(s: Tx, open: Awaited): Tx
    requires Numbered(s)
  {
    if !Live(s) || s.busy then CreateSavepoint(s)
    else SavepointCreated(Await(CreateSavepoint(s), s.nextCall, open.meanwhile), s.nextCall, open.reply)
  }

  function PerformRewind(s: Tx, n: nat, rewind: Awaited): Tx
    requires Numbered(s)
  {
    if !Live(s) || s.busy then RollbackToSavepoint(s, n)
    else
      var s' := Await(RollbackToSavepoint(s, n), s.nextCall, rewind.meanwhile);
      RolledBackTo(s', s.nextCall, Answer(s', n, rewind.reply))
  }

  function PerformClose(s: Tx, n: nat, close: Awaited): Tx
    requires Numbered(s)
  {
    if !Live(s) || s.busy then ReleaseSavepoint(s, n)
    else
      var s' := Await(ReleaseSavepoint(s, n), s.nextCall, close.meanwhile);
      SavepointReleased(s', s.nextCall, Answer(s', n, close.reply))
  }

  // ----- each operation -----

  lemma ExecKeepsStack(s: Tx, a: Action)
    requires Settled(s) && a.Exec?
    ensures SameStack(s, PerformExec(s, a))
  {
    if Live(s) {
      hide Execute, Executed, Undone, Aborted, Own;
      var c := s.nextCall;
      SentIsNumbered(s);
      var sent := Await(Execute(s), c, a.statement.meanwhile);
      ExecutedWinds(sent, c, a.statement.reply);
      var answered := Executed(sent, c, a.statement.reply);
      WindsUp(answered, c, a.undo, a.abort);
    }
  }

  /** An undo and an abort, if they are due, end the statement. */
  lemma WindsUp(s: Tx, c: Call, undo: Awaited, abort: Awaited)
    requires Numbered(s) && (s.busy ==> c in s.calls && (s.calls[c].Undo? || s.calls[c] == Abort))
    ensures var s' := PerformAbort(PerformUndo(s, c, undo), c, abort);
      && s'.savepoints == s.savepoints && s'.spCounter == s.spCounter && Numbered(s') && !s'.busy
      && (Live(s') ==> Live(s))
  {
    hide Undone, Aborted;
    var undone := PerformUndo(s, c, undo);
    if c in s.calls && s.calls[c].Undo? {
      var s' := Await(s, c, undo.meanwhile);
      UndoneWinds(s', c, Answer(s', s'.calls[c].savepoint, undo.reply));
    }
    if Awaits(undone, c, Abort) { AbortedWinds(Await(undone, c, abort.meanwhile), c, abort.reply == Done); }
  }

  lemma TopOfStack(stack: seq<nat>, n: nat)
    requires n !in stack
    ensures Below(stack + [n], n) == stack
    ensures UpTo(stack + [n], n) == stack + [n]
  {
    assert (stack + [n])[|stack|] == n;
  }

  /** SAVEPOINT pushes one name, new to the stack, or none. */
  lemma OpenPushes(s: Tx, open: Awaited)
    requires Settled(s)
    ensures var s' := PerformOpen(s, open);
      && !s'.busy && Numbered(s') && (Live(s') ==> Live(s))
      && s'.savepoints == s.savepoints + (if Live(s) && open.reply == Done then [s.spCounter + 1] else [])
      && s'.spCounter == s.spCounter + if Live(s) then 1 else 0
  {
    hide Await;
    if Live(s) {
      var s' := Await(CreateSavepoint(s), s.nextCall, open.meanwhile);
      OpenAnswered(s', s.nextCall, open.reply);
    }
  }

  lemma OpenAnswered(s: Tx, c: Call, r: Reply)
    requires Numbered(s) && c in s.calls && s.calls[c].Open?
    ensures var s' := SavepointCreated(s, c, r);
      && !s'.busy && Numbered(s') && (Live(s') ==> Live(s)) && s'.spCounter == s.spCounter
      && s'.savepoints == s.savepoints + (if r == Done then [s.calls[c].savepoint] else [])
  {
    hide EndTurn, Wiped, Applied;
    TurnEnds(s, c);
    if r == Done { } else { }
  }

  lemma TurnEnds(s: Tx, c: Call)
    requires Numbered(s)
    ensures var s' := EndTurn(s, c);
      && !s'.busy && Numbered(s') && s'.registered == s.registered && s'.state == s.state
      && s'.spCounter == s.spCounter && s'.savepoints == s.savepoints
  {
  }

  lemma CloseDrops(s: Tx, stack: seq<nat>, n: nat, close: Awaited)
    requires Settled(s) && n !in stack && (Live(s) ==> s.savepoints == stack + [n])
    ensures var s' := PerformClose(s, n, close);
      Settled(s') && (Live(s') ==> Live(s) && s'.savepoints == stack)
  {
    TopOfStack(stack, n);
    hide Await, Own, Below;
    if Live(s) {
      var s' := Await(ReleaseSavepoint(s, n), s.nextCall, close.meanwhile);
      CloseAnswered(s', s.nextCall, Answer(s', n, close.reply));
      assert forall x :: x in stack ==> x in s.savepoints;
    }
  }

  lemma CloseAnswered(s: Tx, c: Call, r: Reply)
    requires Numbered(s) && c in s.calls && s.calls[c].Close?
    ensures var s' := SavepointReleased(s, c, r);
      && !s'.busy && Numbered(s') && (Live(s') ==> Live(s)) && s'.spCounter == s.spCounter
      && s'.savepoints == Below(s.savepoints, s.calls[c].savepoint)
  {
    hide Below;
  }

  lemma RewindKeeps(s: Tx, stack: seq<nat>, n: nat, rewind: Awaited)
    requires Settled(s) && n !in stack && (Live(s) ==> s.savepoints == stack + [n])
    ensures var s' := PerformRewind(s, n, rewind);
      Settled(s') && (Live(s') ==> Live(s) && s'.savepoints == stack + [n])
  {
    TopOfStack(stack, n);
    hide Await, Own, UpTo;
    if Live(s) {
      var s' := Await(RollbackToSavepoint(s, n), s.nextCall, rewind.meanwhile);
      RewindAnswered(s', s.nextCall, Answer(s', n, rewind.reply));
    }
  }

  lemma RewindAnswered(s: Tx, c: Call, r: Reply)
    requires Numbered(s) && c in s.calls && s.calls[c].Rewind?
    ensures var s' := RolledBackTo(s, c, r);
      && !s'.busy && Numbered(s') && (Live(s') ==> Live(s)) && s'.spCounter == s.spCounter
      && s'.savepoints == UpTo(s.savepoints, s.calls[c].savepoint)
  {
    hide UpTo;
  }

  // ----- the script -----

  /** One action, and whether it threw. A nested block, whatever its callback does, whatever fails and whenever the
      transaction ends, leaves the savepoint stack it found and the connection free, unless the transaction has ended. */
  function Perform(s: Tx, a: Action): (r: (Tx, bool))
    requires Settled(s)
    ensures SameStack(s, r.0)
    decreases a
  {
    match a
    case Exec(statement, _, _) =>
      ExecKeepsStack(s, a);
      (PerformExec(s, a), !Live(s) || statement.reply != Done)
    case Pause(meanwhile) =>
      MeanwhileUntouched(s, meanwhile);
      (Meanwhile(s, meanwhile), false)
    case Caught(action) => (Perform(s, action).0, false)
    case Block(open, body, throws, rewind, close) =>
      OpenPushes(s, open);
      var inside := PerformOpen(s, open);
      if !Live(s) || open.reply != Done then (inside, true)
      else
        var n := s.spCounter + 1;
        assert inside.savepoints == s.savepoints + [n] && n !in s.savepoints;
        var (after, threw) := PerformAll(inside, body, throws);
        RewindKeeps(after, s.savepoints, n, rewind);
        CloseDrops(if threw then PerformRewind(after, n, rewind) else after, s.savepoints, n, close);
        (PerformClose(if threw then PerformRewind(after, n, rewind) else after, n, close), threw)
  }

  /** So does any sequence of actions. */
  function PerformAll(s: Tx, body: seq<Action>, throws: bool): (r: (Tx, bool))
    requires Settled(s)
    ensures SameStack(s, r.0)
    decreases body
  {
    if body == [] then (s, throws)
    else
      var (next, threw) := Perform(s, body[0]);
      if threw then (next, true) else PerformAll(next, body[1..], throws)
  }

  // ----- a script is a run -----

  /** What a caller asks for, of the engine's own calls on the connection; answers and outside events are not. */
  predicate Asks(e: Event) {
    e.EExecute? || e.ECreateSavepoint? || e.EReleaseSavepoint? || e.ERollbackTo?
  }

  function Asked(es: seq<Event>): seq<Event> {
    if es == [] then [] else (if Asks(es[0]) then [es[0]] else []) + Asked(es[1..])
  }

  /** Some run of the transaction leads from `s` to `s'`, in which these are asked for, in this order. */
  ghost predicate Leads(s: Tx, s': Tx, asked: seq<Event>) {
    exists es :: CanRun(s, es) && Run(s, es) == s' && Asked(es) == asked
  }

  lemma Stays(s: Tx)
    ensures Leads(s, s, [])
  {
    assert CanRun(s, []) && Run(s, []) == s && Asked([]) == [];
  }

  lemma OneStep(s: Tx, e: Event)
    requires Enabled(s, e)
    ensures Leads(s, Step(s, e), if Asks(e) then [e] else [])
  {
    hide Step, Enabled;
    assert [e][1..] == [];
    assert CanRun(Step(s, e), []) && Run(Step(s, e), []) == Step(s, e);
    assert CanRun(s, [e]) && Run(s, [e]) == Step(s, e) && Asked([e]) == if Asks(e) then [e] else [];
  }

  lemma {:induction false} AskedJoin(es: seq<Event>, more: seq<Event>)
    ensures Asked(es + more) == Asked(es) + Asked(more)
    decreases |es|
  {
    hide Asks;
    if es == [] {
      assert es + more == more;
    } else {
      AskedJoin(es[1..], more);
      assert (es + more)[1..] == es[1..] + more;
    }
  }

  lemma FirstStep(s: Tx, e: Event, es: seq<Event>)
    ensures CanRun(s, [e] + es) <==> Enabled(s, e) && CanRun(Step(s, e), es)
    ensures CanRun(s, [e] + es) ==> Run(s, [e] + es) == Run(Step(s, e), es)
  {
    hide Step, Enabled;
    assert ([e] + es)[1..] == es;
  }

  lemma {:induction false} RunsJoin(s: Tx, es: seq<Event>, more: seq<Event>)
    requires CanRun(s, es) && CanRun(Run(s, es), more)
    ensures CanRun(s, es + more) && Run(s, es + more) == Run(Run(s, es), more)
    decreases |es|
  {
    hide Step, Enabled;
    if es == [] {
      assert es + more == more;
    } else {
      RunsJoin(Step(s, es[0]), es[1..], more);
      assert es + more == [es[0]] + (es[1..] + more);
      FirstStep(s, es[0], es[1..] + more);
    }
  }

  lemma LeadsOn(s: Tx, m: Tx, t: Tx, x: seq<Event>, y: seq<Event>)
    requires Leads(s, m, x) && Leads(m, t, y)
    ensures Leads(s, t, x + y)
  {
    hide CanRun, Run, Asked;
    var es :| CanRun(s, es) && Run(s, es) == m && Asked(es) == x;
    var more :| CanRun(m, more) && Run(m, more) == t && Asked(more) == y;
    RunsJoin(s, es, more);
    AskedJoin(es, more);
  }

  lemma LeadsQuietly(s: Tx, m: Tx, t: Tx, y: seq<Event>)
    requires Leads(s, m, []) && Leads(m, t, y)
    ensures Leads(s, t, y)
  {
    hide Leads;
    LeadsOn(s, m, t, [], y);
    assert [] + y == y;
  }

  lemma {:induction false} MeanwhileLeads(s: Tx, es: seq<Event>)
    ensures Leads(s, Meanwhile(s, es), [])
    decreases |es|
  {
    hide Step, Enabled, Leads;
    if es == [] {
      Stays(s);
    } else {
      var next := if Outside(es[0]) && Enabled(s, es[0]) then Step(s, es[0]) else s;
      if Outside(es[0]) && Enabled(s, es[0]) { OneStep(s, es[0]); } else { Stays(s); }
      MeanwhileLeads(next, es[1..]);
      LeadsQuietly(s, next, Meanwhile(s, es), []);
    }
  }

  /** Asking, the time until the answer, and the answer. */
  lemma AskedAndAnswered(s: Tx, e: Event, s': Tx, meanwhile: seq<Event>, answer: Event)
    requires Enabled(s, e) && Asks(e) && Numbered(Step(s, e)) && s' == Meanwhile(Step(s, e), meanwhile)
    requires Enabled(s', answer) && !Asks(answer)
    ensures Leads(s, Step(s', answer), [e])
  {
    hide Step, Enabled, Leads;
    OneStep(s, e);
    MeanwhileLeads(Step(s, e), meanwhile);
    LeadsOn(s, Step(s, e), s', [e], []);
    OneStep(s', answer);
    LeadsOn(s, s', Step(s', answer), [e] + [], []);
    assert [e] + [] + [] == [e];
  }

  lemma Answered(s: Tx, s': Tx, meanwhile: seq<Event>, answer: Event)
    requires s' == Meanwhile(s, meanwhile) && Enabled(s', answer) && !Asks(answer)
    ensures Leads(s, Step(s', answer), [])
  {
    hide Step, Enabled, Leads;
    MeanwhileLeads(s, meanwhile);
    OneStep(s', answer);
    LeadsQuietly(s, s', Step(s', answer), []);
  }

  lemma OpenLeads(s: Tx, open: Awaited)
    requires Settled(s)
    ensures Leads(s, PerformOpen(s, open), [ECreateSavepoint])
  {
    hide Leads, Await, SavepointCreated;
    if Live(s) {
      var s' := Await(CreateSavepoint(s), s.nextCall, open.meanwhile);
      AwaitIsMeanwhile(CreateSavepoint(s), s.nextCall, open.meanwhile);
      AskedAndAnswered(s, ECreateSavepoint, s', open.meanwhile, ESavepointCreated(s.nextCall, open.reply));
    } else {
      OneStep(s, ECreateSavepoint);
    }
  }

  lemma RewindLeads(s: Tx, n: nat, rewind: Awaited)
    requires Settled(s)
    ensures Leads(s, PerformRewind(s, n, rewind), [ERollbackTo(n)])
  {
    hide Leads, Await, RolledBackTo;
    if Live(s) {
      var s' := Await(RollbackToSavepoint(s, n), s.nextCall, rewind.meanwhile);
      AwaitIsMeanwhile(RollbackToSavepoint(s, n), s.nextCall, rewind.meanwhile);
      AskedAndAnswered(s, ERollbackTo(n), s', rewind.meanwhile, ERolledBackTo(s.nextCall, Answer(s', n, rewind.reply)));
    } else {
      OneStep(s, ERollbackTo(n));
    }
  }

  lemma CloseLeads(s: Tx, n: nat, close: Awaited)
    requires Settled(s)
    ensures Leads(s, PerformClose(s, n, close), [EReleaseSavepoint(n)])
  {
    hide Leads, Await, SavepointReleased;
    if Live(s) {
      var s' := Await(ReleaseSavepoint(s, n), s.nextCall, close.meanwhile);
      AwaitIsMeanwhile(ReleaseSavepoint(s, n), s.nextCall, close.meanwhile);
      AskedAndAnswered(s, EReleaseSavepoint(n), s', close.meanwhile, ESavepointReleased(s.nextCall, Answer(s', n, close.reply)));
    } else {
      OneStep(s, EReleaseSavepoint(n));
    }
  }

  lemma AwaitIsMeanwhile(s: Tx, c: Call, meanwhile: seq<Event>)
    requires Numbered(s) && c in s.calls && Own(s.calls[c])
    ensures Await(s, c, meanwhile) == Meanwhile(s, meanwhile)
  {
  }

  lemma UndoLeads(s: Tx, c: Call, undo: Awaited)
    requires Numbered(s)
    ensures Leads(s, PerformUndo(s, c, undo), [])
  {
    hide Leads, Await, Undone, Meanwhile;
    if c in s.calls && s.calls[c].Undo? {
      var s' := Await(s, c, undo.meanwhile);
      AwaitIsMeanwhile(s, c, undo.meanwhile);
      Answered(s, s', undo.meanwhile, EUndone(c, Answer(s', s'.calls[c].savepoint, undo.reply)));
    } else {
      Stays(s);
    }
  }

  lemma AbortLeads(s: Tx, c: Call, abort: Awaited)
    requires Numbered(s)
    ensures Leads(s, PerformAbort(s, c, abort), [])
  {
    hide Leads, Await, Aborted, Meanwhile;
    if Awaits(s, c, Abort) {
      var s' := Await(s, c, abort.meanwhile);
      AwaitIsMeanwhile(s, c, abort.meanwhile);
      Answered(s, s', abort.meanwhile, EAborted(c, abort.reply == Done));
    } else {
      Stays(s);
    }
  }

  lemma ExecLeads(s: Tx, a: Action)
    requires Settled(s) && a.Exec?
    ensures Leads(s, PerformExec(s, a), [EExecute])
  {
    hide Leads, Await, Executed, PerformUndo, PerformAbort, Meanwhile;
    if Live(s) {
      var c := s.nextCall;
      SentIsNumbered(s);
      var sent := Await(Execute(s), c, a.statement.meanwhile);
      AwaitIsMeanwhile(Execute(s), c, a.statement.meanwhile);
      ExecutedWinds(sent, c, a.statement.reply);
      AskedAndAnswered(s, EExecute, sent, a.statement.meanwhile, EExecuted(c, a.statement.reply));
      var answered := Executed(sent, c, a.statement.reply);
      UndoLeads(answered, c, a.undo);
      AbortLeads(PerformUndo(answered, c, a.undo), c, a.abort);
      LeadsQuietly(answered, PerformUndo(answered, c, a.undo), PerformExec(s, a), []);
      LeadsOn(s, answered, PerformExec(s, a), [EExecute], []);
      assert [EExecute] + [] == [EExecute];
    } else {
      OneStep(s, EExecute);
    }
  }

  /** What a block asks for: a savepoint, and once it has that, what its body asks for, then to go back to the savepoint if and only
      if it throws, and to release it. */
  ghost predicate BlockAsks(s: Tx, a: Action, threw: bool, asked: seq<Event>)
    requires a.Block?
  {
    if !Live(s) || a.open.reply != Done then threw && asked == [ECreateSavepoint]
    else
      var n := s.spCounter + 1;
      exists inner ::
        asked == [ECreateSavepoint] + inner + (if threw then [ERollbackTo(n)] else []) + [EReleaseSavepoint(n)]
  }

  /** Whatever a callback does is a run of the transaction, in which a statement is asked for once, and a nested block goes back
      to its savepoint exactly when it throws, and releases it in any case. */
  lemma {:induction false} PerformIsARun(s: Tx, a: Action) returns (asked: seq<Event>)
    requires Settled(s)
    ensures var (s', threw) := Perform(s, a);
      && Leads(s, s', asked)
      && match a
         case Exec(_, _, _) => asked == [EExecute] && (!threw <==> Live(s) && a.statement.reply == Done)
         case Pause(_) => asked == [] && !threw
         case Caught(_) => !threw
         case Block(_, _, throws, _, _) => BlockAsks(s, a, threw, asked) && (throws ==> threw)
    decreases a
  {
    hide Leads, PerformExec, PerformOpen, PerformRewind, PerformClose, Meanwhile;
    match a
    case Exec(_, _, _) =>
      ExecLeads(s, a);
      asked := [EExecute];
    case Pause(meanwhile) =>
      MeanwhileLeads(s, meanwhile);
      asked := [];
    case Caught(action) =>
      asked := PerformIsARun(s, action);
    case Block(open, body, throws, rewind, close) =>
      OpenLeads(s, open);
      OpenPushes(s, open);
      asked := [ECreateSavepoint];
      var inside := PerformOpen(s, open);
      if Live(s) && open.reply == Done {
        var n := s.spCounter + 1;
        var inner := AllIsARun(inside, body, throws);
        var (after, threw) := PerformAll(inside, body, throws);
        BlockEnds(s, after, n, threw, rewind, close);
        LeadsOn(s, inside, after, asked, inner);
        var end := (if threw then [ERollbackTo(n)] else []) + [EReleaseSavepoint(n)];
        LeadsOn(s, after, Perform(s, a).0, asked + inner, end);
        asked := asked + inner + (if threw then [ERollbackTo(n)] else []) + [EReleaseSavepoint(n)];
        assert asked == [ECreateSavepoint] + inner + end;
      }
  }

  lemma BlockEnds(s: Tx, after: Tx, n: nat, threw: bool, rewind: Awaited, close: Awaited)
    requires Settled(s) && Settled(after) && n == s.spCounter + 1 && (Live(after) ==> after.savepoints == s.savepoints + [n])
    ensures var rewound := if threw then PerformRewind(after, n, rewind) else after;
      Leads(after, PerformClose(rewound, n, close), (if threw then [ERollbackTo(n)] else []) + [EReleaseSavepoint(n)])
  {
    hide Leads, PerformRewind, PerformClose;
    var rewound := if threw then PerformRewind(after, n, rewind) else after;
    if threw {
      RewindLeads(after, n, rewind);
      RewindKeeps(after, s.savepoints, n, rewind);
    } else {
      Stays(after);
    }
    CloseLeads(rewound, n, close);
    LeadsOn(after, rewound, PerformClose(rewound, n, close), if threw then [ERollbackTo(n)] else [], [EReleaseSavepoint(n)]);
  }

  lemma {:induction false} AllIsARun(s: Tx, body: seq<Action>, throws: bool) returns (asked: seq<Event>)
    requires Settled(s)
    ensures Leads(s, PerformAll(s, body, throws).0, asked) && (throws ==> PerformAll(s, body, throws).1)
    decreases body
  {
    hide Leads, Perform;
    if body == [] {
      Stays(s);
      asked := [];
    } else {
      asked := PerformIsARun(s, body[0]);
      var (next, threw) := Perform(s, body[0]);
      if !threw {
        var more := AllIsARun(next, body[1..], throws);
        LeadsOn(s, next, PerformAll(s, body, throws).0, asked, more);
        asked := asked + more;
      }
    }
  }
}
