/** What a CLOSED engine may still hold: nothing, unless a `connect` starts while an earlier call is still closing. */
module PoolOverlap {
  import opened PoolModel
  import opened PoolInvariants
  import opened PoolTheorems
  import opened PoolLifecycle
  import PoolOptions

  /** A `connect` that will do anything finds no call still on its way to CLOSED. */
  ghost predicate StartsAlone(h: Host, m: Move) {
    m == MConnect && h.status == CLOSED ==> forall c :: !WillClose(h, c)
  }

  ghost predicate ConnectsAlone(h: Host, ms: seq<Move>)
    requires CanGo(h, ms)
    decreases |ms|
  {
    ms == [] || (StartsAlone(h, ms[0]) && ConnectsAlone(Next(h, ms[0]), ms[1..]))
  }

  // ----- connects that start alone -----

  ghost predicate Tidy(h: Host) {
    && Sound(h)
    && (forall c :: WillClose(h, c) ==> h.pool.draining)
    && (h.status == CLOSED ==> h.pool.draining || h.nextCall == 0)
  }

  lemma TidyKeeps(h: Host, m: Move)
    requires Tidy(h) && CanMove(h, m) && StartsAlone(h, m)
    ensures Tidy(Next(h, m))
  {
    hide Sound, Step, Drain, EnsureMin;
    NextKeeps(h, m);
    match m
    case MConnect =>
      WarmUpDraining(h.pool.(draining := false));
      assert forall c :: WillClose(Next(h, m), c) ==> WillClose(h, c);
    case MDisconnect => DrainDrains(h.pool);
    case MWarmed(c, ok) =>
      DrainDrains(h.pool);
      assert ok && !h.pool.draining ==> forall d :: WillClose(Next(h, m), d) ==> WillClose(h, d);
    case MClosed(c) => assert WillClose(h, c);
    case MPool(e) =>
      StepDraining(h.pool, e);
      assert forall c :: WillClose(Next(h, m), c) ==> WillClose(h, c);
  }

  lemma {:induction false} GoIsTidy(h: Host, ms: seq<Move>)
    requires Tidy(h) && CanGo(h, ms) && ConnectsAlone(h, ms)
    ensures Tidy(Go(h, ms))
    decreases |ms|
  {
    hide Tidy, Next, CanMove, StartsAlone;
    if ms != [] {
      TidyKeeps(h, ms[0]);
      GoIsTidy(Next(h, ms[0]), ms[1..]);
    }
  }

  /** As long as no `connect` starts while a call is still closing, CLOSED means an empty idle list, whatever else
      overlaps. */
  lemma ClosedMeansEmpty(o: PoolOptions.PoolOption, ms: seq<Move>)
    requires PoolOptions.Validate(o) && CanGo(Fresh(ConfigOf(o)), ms) && ConnectsAlone(Fresh(ConfigOf(o)), ms)
    ensures var h := Go(Fresh(ConfigOf(o)), ms);
      h.status == CLOSED && h.nextCall > 0 ==> h.pool.idle == []
  {
    hide Reached;
    FreshIsSound(o);
    GoIsTidy(Fresh(ConfigOf(o)), ms);
    var h := Go(Fresh(ConfigOf(o)), ms);
    if h.pool.draining { DrainingKeepsNothing(h.pool); }
  }

  // ----- a connect that starts while a call is closing -----

  /** Events in which nothing fails and no lifecycle call is involved. */
  predicate Calm(e: Event) {
    && e != EEnsureMin && e != EDrain && e != EReopen
    && (e.EValidated? ==> e.check == Valid) && (e.ECreated? ==> e.ok) && (e.EHanded? ==> e.valid)
  }

  ghost predicate CalmRun(s: State, es: seq<Event>, s': State) {
    && (forall e :: e in es ==> Calm(e))
    && CanRun(s, es) && Run(s, es) == s'
  }

  lemma {:induction false} CalmOn(s: State, es: seq<Event>, mid: State, es': seq<Event>, s': State)
    requires CalmRun(s, es, mid) && CalmRun(mid, es', s')
    ensures CalmRun(s, es + es', s')
    decreases |es|
  {
    hide Step, Enabled, Calm;
    if es == [] {
      assert es + es' == es';
    } else {
      assert CalmRun(Step(s, es[0]), es[1..], mid);
      CalmOn(Step(s, es[0]), es[1..], mid, es', s');
      assert (es + es')[1..] == es[1..] + es' && (es + es')[0] == es[0];
    }
  }

  lemma CalmOne(s: State, e: Event)
    requires Enabled(s, e) && Calm(e)
    ensures CalmRun(s, [e], Step(s, e))
  {
    hide Step, Enabled, Calm;
    var es := [e];
    assert es[1..] == [] && CanRun(s, es);
    assert Run(s, es) == Run(Step(s, e), []) == Step(s, e);
  }

  /** What every step leaves of the tasks a lifecycle call may await. */
  ghost predicate KindsStay(s: State, s': State) {
    && s.nextId <= s'.nextId
    && forall t :: t in s'.tasks && t < s.nextId ==>
         && t in s.tasks
         && (s.tasks[t].Creating? ==> s'.tasks[t] == s.tasks[t])
         && (s.tasks[t].Draining? ==> s'.tasks[t].Draining?)
  }

  ghost predicate TasksStay(s: State, s': State) {
    s'.draining == s.draining && KindsStay(s, s')
  }

  lemma {:induction false} FactoriesStay(s: State, n: nat, purpose: Purpose)
    ensures var s' := StartFactories(s, n, purpose);
      && s'.cfg == s.cfg && s'.idle == s.idle && s'.held == s.held && s'.active == s.active && s.nextId <= s'.nextId
      && (forall t :: t < s.nextId ==> (t in s'.tasks <==> t in s.tasks))
      && (forall t :: t < s.nextId && t in s.tasks ==> s'.tasks[t] == s.tasks[t])
      && (forall t :: t in s'.tasks && s.nextId <= t < s'.nextId ==> s'.tasks[t] == Creating(purpose) || t in s.tasks)
      && (forall t :: t in s'.tasks ==> t in s.tasks || t < s'.nextId)
    decreases n
  {
    if n != 0 {
      FactoriesStay(Spawn(s.(pending := s.pending + 1), Creating(purpose)), n - 1, purpose);
    }
  }

  lemma WarmUpStays(s: State)
    ensures KindsStay(s, EnsureMin(s))
    ensures forall t :: t in Begun(s, EnsureMin(s)) ==> EnsureMin(s).tasks[t] == Creating(ForWarmth) && t < EnsureMin(s).nextId
  {
    forall n: nat, purpose { FactoriesStay(s, n, purpose); }
  }

  lemma {:induction false} RejectAllStays(s: State)
    ensures RejectAll(s).tasks == s.tasks && RejectAll(s).nextId == s.nextId
    decreases |s.waiters|
  {
    if s.waiters != [] {
      if s.waiters[0].ticket in s.settled {
        RejectAllStays(s.(waiters := s.waiters[1..]));
      } else {
        RejectAllStays(SettleHead(s).(results := s.results[s.waiters[0].call := PoolDraining]));
      }
    }
  }

  lemma DrainStays(s: State)
    ensures KindsStay(s, Drain(s))
    ensures forall t :: t in Begun(s, Drain(s)) ==> Drain(s).tasks[t].Draining?
    ensures forall t :: t in Begun(s, Drain(s)) ==> t < Drain(s).nextId
  {
    hide RejectAll;
    if !s.draining { RejectAllStays(s.(draining := true)); }
  }

  /** Something is idle, or held by someone who can give it back. */
  ghost predicate Stocked(s: State) {
    s.idle != [] || exists call :: call in s.held
  }

  lemma DeliverStays(s: State, r: Res)
    ensures var s' := Deliver(s, r);
      && s'.tasks == s.tasks && s'.nextId == s.nextId && s'.draining == s.draining
      && (Stocked(s'))
  {
    hide DropSettled;
    var ws := DropSettled(s.waiters, s.settled);
    if ws != [] { assert ws[0].call in Deliver(s, r).held; }
  }

  lemma FailOneStays(s: State)
    ensures FailOne(s).tasks == s.tasks && FailOne(s).nextId == s.nextId
  {
    hide DropSettled;
  }

  lemma {:induction false} PumpStays(s: State, live: nat, throws: seq<bool>)
    requires forall t :: t in s.tasks ==> t < s.nextId
    ensures KindsStay(s, PumpOn(s, live, throws))
    decreases live
  {
    hide FailOne;
    if live > 0 && Size(s) < s.cfg.max {
      FailOneStays(s);
      PumpStays(if throws != [] && throws[0] then FailOne(s) else Spawn(s.(pending := s.pending + 1), Creating(ForWaiter)),
                live - 1, if throws == [] then [] else throws[1..]);
    }
  }

  lemma FailureStays(s: State, t: Id)
    requires t in s.tasks && s.tasks[t].Creating?
    ensures Created(s, t, false).tasks == s.tasks - {t} && Created(s, t, false).nextId == s.nextId
  {
    hide FailOne;
    FailOneStays(Finish(s, t).(pending := s.pending - 1));
  }

  lemma AcquireStays(s: State, e: Event)
    requires Enabled(s, e) && (e.EAcquire? || e.EValidated? || e.EDiscarded?)
    requires forall t :: t in s.tasks ==> t < s.nextId
    ensures KindsStay(s, Step(s, e))
  {
  }

  lemma StepStays(s: State, e: Event)
    requires Enabled(s, e) && forall t :: t in s.tasks ==> t < s.nextId
    ensures KindsStay(s, Step(s, e))
  {
    hide PumpOn, CountLive, EnsureMin, Drain, Acquire, Validated, Discarded, Created, Release, RemoveFirst, RemoveWaiter, Deliver;
    match e
    case EAcquire(timed) => AcquireStays(s, e);
    case EValidated(call, check) => AcquireStays(s, e);
    case EDiscarded(call) => AcquireStays(s, e);
    case EEnsureMin => WarmUpStays(s);
    case EDrain => DrainStays(s);
    case EPumped(t, throws) => PumpStays(Finish(s, t), CountLive(s.waiters, s.settled), throws);
    case EIdleTimeout(r) => WarmUpStays(s.(idleTimers := s.idleTimers - {r}));
    case ECreated(t, ok) => if ok { CreatedStays(s, t); } else { FailureStays(s, t); }
    case EHanded(t, valid) => DeliverStays(Finish(s.(handoff := s.handoff - {s.tasks[t].res}), t), s.tasks[t].res);
    case ERelease(call) => ReleaseStays(s, call);
    case _ =>
  }

  lemma CreatedStays(s: State, t: Id)
    requires t in s.tasks && s.tasks[t].Creating?
    ensures var s' := Created(s, t, true);
      && s'.tasks == s.tasks - {t} && s'.nextId == s.nextId && s'.draining == s.draining
      && (!s.draining || s.tasks[t] == Creating(ForCaller) ==> Stocked(s'))
      && (!s.draining && s.tasks[t] == Creating(ForWarmth) ==> s'.idle != [])
  {
    hide Deliver, FailOne;
    if s.tasks[t] == Creating(ForCaller) { assert t in Created(s, t, true).held; }
    DeliverStays(Finish(s, t).(pending := s.pending - 1, made := s.made + 1), s.made);
  }

  lemma ReleaseStays(s: State, call: Id)
    requires call in s.held
    ensures var s' := Release(s, call);
      && s'.draining == s.draining && s.nextId <= s'.nextId <= s.nextId + 1
      && (s'.tasks == s.tasks || s'.tasks == s.tasks[s.nextId := Handing(s.held[call])])
  {
    hide CountLive;
  }

  ghost predicate CalmReach(s: State, es: seq<Event>, s': State) {
    Reached(s) && Reached(s') && CalmRun(s, es, s') && TasksStay(s, s')
  }

  lemma Stay(s: State)
    requires Reached(s)
    ensures CalmReach(s, [], s)
  {
    hide Reached;
    assert Run(s, []) == s;
  }

  lemma OneCalm(s: State, e: Event)
    requires Reached(s) && Enabled(s, e) && Calm(e)
    ensures CalmReach(s, [e], Step(s, e)) && Reached(Step(s, e))
  {
    hide Step, Enabled, Reached, Buckets, Hands, Queue, InOrder, KindsStay;
    var home := ReachedIsGood(s);
    ReachedStep(s, e);
    StepStays(s, e);
    StepDraining(s, e);
    CalmOne(s, e);
  }

  lemma CalmReachOn(s: State, es: seq<Event>, mid: State, es': seq<Event>, s': State)
    requires CalmReach(s, es, mid) && CalmReach(mid, es', s')
    ensures CalmReach(s, es + es', s')
  {
    hide Reached, CalmRun;
    CalmOn(s, es, mid, es', s');
  }

  lemma {:induction false} DropShorter(ws: seq<Waiter>, settled: set<nat>)
    ensures |DropSettled(ws, settled)| <= |ws|
  {
    if ws != [] { DropShorter(ws[1..], settled); }
  }

  /** A held resource given back is idle, or held by the next in the queue. */
  lemma OneRound(s: State, call: Id) returns (es: seq<Event>, s': State)
    requires Reached(s) && !s.draining && call in s.held
    ensures CalmReach(s, es, s') && Reached(s') && !s'.draining
    ensures s'.idle != [] || exists next :: next in s'.held && |s'.waiters| < |s.waiters|
  {
    hide Reached, CalmReach, Step, Enabled, Release, Handed;
    HandOutIsExclusive(s, call, call);
    ReleaseEnds(s, call);
    OneCalm(s, ERelease(call));
    es, s' := [ERelease(call)], Release(s, call);
    if s'.idle == [] {
      var back := s';
      HandedEnds(back, s.nextId);
      OneCalm(back, EHanded(s.nextId, true));
      es, s' := [ERelease(call)] + [EHanded(s.nextId, true)], Handed(back, s.nextId, true);
      CalmReachOn(s, [ERelease(call)], back, [EHanded(s.nextId, true)], s');
    }
  }

  /** Given back again and again, it serves the queue and is idle in the end. */
  lemma {:induction false} HolderFeedsIdle(s: State, call: Id) returns (es: seq<Event>, s': State)
    requires Reached(s) && !s.draining && call in s.held
    ensures CalmReach(s, es, s') && s'.idle != []
    decreases |s.waiters|
  {
    hide Reached, CalmReach;
    es, s' := OneRound(s, call);
    if s'.idle == [] {
      var next :| next in s'.held;
      var more, last := HolderFeedsIdle(s', next);
      CalmReachOn(s, es, s', more, last);
      es, s' := es + more, last;
    }
  }

  lemma ReleaseEnds(s: State, call: Id)
    requires call in s.held && s.held[call] in s.active && !s.draining
    ensures Enabled(s, ERelease(call)) && Step(s, ERelease(call)) == Release(s, call)
    ensures var back := Release(s, call);
      && back.waiters == s.waiters && !back.draining
      && (back.idle != [] || (s.nextId in back.tasks && back.tasks[s.nextId].Handing?))
  {
    hide CountLive;
  }

  lemma HandedEnds(s: State, t: Id)
    requires t in s.tasks && s.tasks[t].Handing? && !s.draining
    ensures Enabled(s, EHanded(t, true)) && Step(s, EHanded(t, true)) == Handed(s, t, true)
    ensures var served := Handed(s, t, true);
      !served.draining && (served.idle != [] || exists call :: call in served.held && |served.waiters| < |s.waiters|)
  {
    hide DropSettled;
    DropShorter(s.waiters, s.settled);
    var ws := DropSettled(s.waiters, s.settled);
    if ws != [] { assert ws[0].call in Handed(s, t, true).held; }
  }

  /** Slots that no one can give back: claimed by an acquire whose validation threw. */
  ghost function Lost(s: State): set<Res> {
    set r | r in s.active && !Attended(s, r)
  }

  /** With a slot that is not lost, something can come to be idle. */
  lemma SomethingComesIdle(s: State) returns (es: seq<Event>, s': State)
    requires Reached(s) && !s.draining && |Lost(s)| < s.cfg.max
    ensures CalmReach(s, es, s') && s'.idle != []
  {
    hide Reached, CalmReach;
    es, s' := SomethingIsHeld(s);
    if s'.idle == [] {
      var call :| call in s'.held;
      var more, last := HolderFeedsIdle(s', call);
      CalmReachOn(s, es, s', more, last);
      es, s' := es + more, last;
    }
  }

  lemma SomethingIsHeld(s: State) returns (es: seq<Event>, s': State)
    requires Reached(s) && !s.draining && |Lost(s)| < s.cfg.max
    ensures CalmReach(s, es, s') && Reached(s') && !s'.draining && Stocked(s')
  {
    hide Reached, CalmReach;
    Stay(s);
    es, s' := [], s;
    if !Stocked(s) {
      if t :| t in s.tasks && (s.tasks[t].Validating? || s.tasks[t].Creating? || s.tasks[t].Handing?) {
        es, s' := TaskStocks(s, t);
      } else {
        NothingAtWork(s);
        es, s' := NewcomerStocks(s);
      }
    }
  }

  lemma TaskStocks(s: State, t: Id) returns (es: seq<Event>, s': State)
    requires Reached(s) && !s.draining && t in s.tasks
    requires s.tasks[t].Validating? || s.tasks[t].Creating? || s.tasks[t].Handing?
    ensures CalmReach(s, es, s') && Reached(s') && !s'.draining && Stocked(s')
  {
    hide Reached, CalmReach, Created, Handed;
    var e := match s.tasks[t]
      case Validating(_, _) => EValidated(t, Valid)
      case Creating(_) => ECreated(t, true)
      case _ => EHanded(t, true);
    OneCalm(s, e);
    es, s' := [e], Step(s, e);
    if s.tasks[t].Creating? { CreatedStays(s, t); }
    if s.tasks[t].Handing? { HandedEnds(s, t); }
    if s.tasks[t].Validating? { assert t in s'.held; }
  }

  /** With nobody holding, validating, creating or handing over, what is active is lost, so there is room. */
  lemma NothingAtWork(s: State)
    requires Reached(s) && !Stocked(s) && |Lost(s)| < s.cfg.max
    requires forall t :: t in s.tasks ==> !s.tasks[t].Validating? && !s.tasks[t].Creating? && !s.tasks[t].Handing?
    ensures Size(s) < s.cfg.max
  {
    var home := ReachedIsGood(s);
    assert Lost(s) == s.active;
    assert InFactory(s.tasks) == {};
    assert forall q: Res :: q in s.handoff ==> InHand(s.tasks, s.held, q, home[q]);
    assert s.handoff == {};
  }

  lemma NewcomerStocks(s: State) returns (es: seq<Event>, s': State)
    requires Reached(s) && !s.draining && s.idle == [] && Size(s) < s.cfg.max
    ensures CalmReach(s, es, s') && Reached(s') && !s'.draining && Stocked(s')
  {
    hide Reached, CalmReach, Created;
    OneCalm(s, EAcquire(false));
    var mid := Step(s, EAcquire(false));
    OneCalm(mid, ECreated(s.nextId, true));
    CreatedStays(mid, s.nextId);
    es, s' := [EAcquire(false)] + [ECreated(s.nextId, true)], Created(mid, s.nextId, true);
    CalmReachOn(s, [EAcquire(false)], mid, [ECreated(s.nextId, true)], s');
  }

  // ----- the lifecycle around it -----

  /** What each call awaits is of its own doing. */
  ghost predicate Tied(h: Host) {
    && (forall c, t :: c in h.calls && t in h.calls[c].awaits ==> t < h.pool.nextId && Fits(h.calls[c], h.pool.tasks, t))
    && (forall t :: t in h.failed ==> t < h.pool.nextId)
  }

  predicate Fits(stage: Stage, tasks: map<Id, Task>, t: Id) {
    t in tasks ==> if stage.Warming? then tasks[t] == Creating(ForWarmth) else tasks[t].Draining?
  }

  lemma PoolStepIsTied(h: Host, pool: State, failed: set<Id>)
    requires Tied(h) && KindsStay(h.pool, pool) && forall t :: t in failed ==> t < pool.nextId
    ensures Tied(h.(pool := pool, failed := failed))
  {
  }

  lemma NextIsTied(h: Host, m: Move)
    requires Sound(h) && Tied(h) && CanMove(h, m)
    ensures Tied(Next(h, m))
  {
    hide Step, Drain, EnsureMin, KindsStay, Buckets, Hands, Queue, InOrder, Reached;
    var home := ReachedIsGood(h.pool);
    match m
    case MConnect =>
      var reopened := h.pool.(draining := false);
      WarmUpStays(reopened);
      TiedNew(h, reopened, EnsureMin(reopened), h.nextCall, Warming(Begun(reopened, EnsureMin(reopened))));
    case MDisconnect =>
      DrainStays(h.pool);
      TiedNew(h, h.pool, Drain(h.pool), h.nextCall, Disconnecting(Begun(h.pool, Drain(h.pool))));
    case MWarmed(c, ok) =>
      DrainStays(h.pool);
      TiedNew(h, h.pool, Drain(h.pool), c, Failing(Begun(h.pool, Drain(h.pool))));
      TiedNew(h, h.pool, Drain(h.pool), c, Retreating(Begun(h.pool, Drain(h.pool))));
    case MClosed(c) =>
    case MPool(e) =>
      StepStays(h.pool, e);
      KindsMeanNext(h.pool, Step(h.pool, e));
      PoolStepIsTied(h, Step(h.pool, e), Next(h, m).failed);
  }

  lemma KindsMeanNext(s: State, s': State)
    requires KindsStay(s, s')
    ensures s.nextId <= s'.nextId
  {
  }

  lemma TiedNew(h: Host, before: State, after: State, c: nat, stage: Stage)
    requires Tied(h) && before.tasks == h.pool.tasks && before.nextId == h.pool.nextId && KindsStay(before, after)
    requires stage.awaits == Begun(before, after)
    requires forall t :: t in stage.awaits ==> t < after.nextId && Fits(stage, after.tasks, t)
    ensures Tied(h.(pool := after, calls := h.calls[c := stage]))
  {
  }

  lemma {:induction false} GoIsTied(h: Host, ms: seq<Move>)
    requires Sound(h) && Tied(h) && CanGo(h, ms)
    ensures Sound(Go(h, ms)) && Tied(Go(h, ms))
    decreases |ms|
  {
    hide Sound, Tied, Next, CanMove;
    if ms != [] {
      NextKeeps(h, ms[0]);
      NextIsTied(h, ms[0]);
      GoIsTied(Next(h, ms[0]), ms[1..]);
    }
  }

  /** Moves that take `h` to `h'` with no further call to the lifecycle. */
  ghost predicate Gets(h: Host, ms: seq<Move>, h': Host) {
    MConnect !in ms && MDisconnect !in ms && CanGo(h, ms) && Go(h, ms) == h'
  }

  lemma {:induction false} GetsOn(h: Host, ms: seq<Move>, mid: Host, ms': seq<Move>, h': Host)
    requires Gets(h, ms, mid) && Gets(mid, ms', h')
    ensures Gets(h, ms + ms', h')
    decreases |ms|
  {
    hide Next, CanMove;
    if ms == [] {
      assert ms + ms' == ms';
    } else {
      assert Gets(Next(h, ms[0]), ms[1..], mid);
      GetsOn(Next(h, ms[0]), ms[1..], mid, ms', h');
      assert (ms + ms')[1..] == ms[1..] + ms' && (ms + ms')[0] == ms[0];
    }
  }

  lemma GetsOne(h: Host, m: Move)
    requires CanMove(h, m) && m != MConnect && m != MDisconnect
    ensures Gets(h, [m], Next(h, m))
  {
    hide Next, CanMove;
    var ms := [m];
    assert ms[1..] == [] && CanGo(h, ms);
    assert Go(h, ms) == Go(Next(h, m), []) == Next(h, m);
  }

  function PoolMoves(es: seq<Event>): (ms: seq<Move>)
    ensures |ms| == |es|
  {
    if es == [] then [] else [MPool(es[0])] + PoolMoves(es[1..])
  }

  /** A calm run of the pool is one of its engine. */
  lemma {:induction false} Lifts(h: Host, es: seq<Event>, s': State)
    requires CalmRun(h.pool, es, s')
    ensures Gets(h, PoolMoves(es), h.(pool := s'))
    decreases |es|
  {
    hide Step, Enabled;
    if es != [] {
      var next := h.(pool := Step(h.pool, es[0]));
      assert CalmRun(next.pool, es[1..], s');
      Lifts(next, es[1..], s');
      assert es[0] in es && Next(h, MPool(es[0])) == next;
      assert PoolMoves(es)[1..] == PoolMoves(es[1..]);
    }
  }

  /** The factory calls a warm-up awaits can all succeed. */
  lemma {:induction false} WarmUpEnds(s: State, awaits: set<Id>) returns (es: seq<Event>, s': State)
    requires Reached(s) && !s.draining
    requires forall t :: t in awaits && t in s.tasks ==> s.tasks[t] == Creating(ForWarmth)
    ensures CalmReach(s, es, s') && awaits !! s'.tasks.Keys && (s.idle != [] ==> s'.idle != [])
    decreases |awaits * s.tasks.Keys|
  {
    hide Reached, CalmReach, Created, Park;
    if t :| t in awaits && t in s.tasks {
      OneCalm(s, ECreated(t, true));
      CreatedStays(s, t);
      var next := Created(s, t, true);
      assert awaits * s.tasks.Keys == awaits * next.tasks.Keys + {t};
      var more, last := WarmUpEnds(next, awaits);
      CalmReachOn(s, [ECreated(t, true)], next, more, last);
      es, s' := [ECreated(t, true)] + more, last;
    } else {
      Stay(s);
      es, s' := [], s;
    }
  }

  /** A drain can go through what is left of its list. */
  lemma {:induction false} DrainEnds(s: State, awaits: set<Id>) returns (es: seq<Event>, s': State)
    requires Reached(s)
    requires forall t :: t in awaits && t in s.tasks ==> s.tasks[t].Draining?
    ensures CalmReach(s, es, s') && awaits !! s'.tasks.Keys && s'.idle == s.idle
    decreases |awaits * s.tasks.Keys|
  {
    hide Reached, CalmReach, DrainOn;
    if t :| t in awaits && t in s.tasks {
      var first, mid := LoopEnds(s, t);
      assert awaits * s.tasks.Keys == awaits * mid.tasks.Keys + {t};
      var more, last := DrainEnds(mid, awaits);
      CalmReachOn(s, first, mid, more, last);
      es, s' := first + more, last;
    } else {
      Stay(s);
      es, s' := [], s;
    }
  }

  lemma {:induction false} LoopEnds(s: State, t: Id) returns (es: seq<Event>, s': State)
    requires Reached(s) && t in s.tasks && s.tasks[t].Draining?
    ensures CalmReach(s, es, s') && Reached(s') && s'.tasks == s.tasks - {t} && s'.idle == s.idle
    decreases |s.tasks[t].rest|
  {
    hide Reached, CalmReach;
    OneCalm(s, EDrainOn(t));
    es, s' := [EDrainOn(t)], Step(s, EDrainOn(t));
    if s.tasks[t].rest != [] {
      var more, last := LoopEnds(s', t);
      CalmReachOn(s, es, s', more, last);
      assert s'.tasks - {t} == s.tasks - {t};
      es, s' := es + more, last;
    }
  }

  /** The condition is exact. A `connect` that starts while the call `c` is closing can go well, fill the idle list and
      make the engine READY, and `c` then sets CLOSED over it. All it takes is one slot that is not lost. */
  lemma ClosingUnderAConnect(o: PoolOptions.PoolOption, before: seq<Move>, c: nat) returns (ms: seq<Move>, h': Host)
    requires PoolOptions.Validate(o) && CanGo(Fresh(ConfigOf(o)), before)
    requires var h := Go(Fresh(ConfigOf(o)), before);
      h.status == CLOSED && WillClose(h, c) && |Lost(h.pool)| < h.pool.cfg.max
    ensures var h := Go(Fresh(ConfigOf(o)), before);
      Gets(Connect(h), ms, h') && h'.status == CLOSED && h'.pool.idle != [] && h'.calls == h.calls - {c}
  {
    hide Sound, Tied, CanMove, Next, Connect, Gets, Reached, CalmReach, Lost;
    var h := Go(Fresh(ConfigOf(o)), before);
    FreshIsSound(o);
    FreshIsTied(ConfigOf(o));
    GoIsTied(Fresh(ConfigOf(o)), before);
    var d := h.nextCall;
    var warm := ConnectStarts(h, c);
    var es, filled := SomethingComesIdle(warm.pool);
    Waits(warm, d, es, filled);
    var es', warmed := WarmUpEnds(filled, warm.calls[d].awaits);
    CalmReachOn(warm.pool, es, filled, es', warmed);
    var ready := ConnectEnds(h, warm, es + es', warmed);
    Waits(warm, c, es + es', warmed);
    var es'', drained := DrainEnds(warmed, h.calls[c].awaits);
    var closed := CloseEnds(ready, c, es'', drained);
    ms, h' := PoolMoves(es + es') + [MWarmed(d, true)] + (PoolMoves(es'') + [MClosed(c)]), closed;
    GetsOn(warm, PoolMoves(es + es') + [MWarmed(d, true)], ready, PoolMoves(es'') + [MClosed(c)], closed);
  }

  lemma FreshIsTied(cfg: Config)
    ensures Tied(Fresh(cfg))
  {
  }

  /** The `connect` is under way: its factories have been called, the pool is open. */
  lemma ConnectStarts(h: Host, c: nat) returns (warm: Host)
    requires Sound(h) && Tied(h) && h.status == CLOSED && WillClose(h, c) && |Lost(h.pool)| < h.pool.cfg.max
    ensures warm == Connect(h) && Sound(warm) && Tied(warm) && Reached(warm.pool)
    ensures !warm.pool.draining && |Lost(warm.pool)| < warm.pool.cfg.max && h.nextCall !in h.calls
    ensures h.nextCall in warm.calls && warm.calls[h.nextCall].Warming? && warm.failed == h.failed
    ensures warm.calls == h.calls[h.nextCall := warm.calls[h.nextCall]]
    ensures warm.calls[h.nextCall].awaits !! h.failed
  {
    hide Reached, EnsureMin;
    warm := Connect(h);
    NextKeeps(h, MConnect);
    NextIsTied(h, MConnect);
    var reopened := h.pool.(draining := false);
    WarmUpDraining(reopened);
    LostStays(h.pool, reopened);
    WarmUpStays(reopened);
    BegunIsNew(h, reopened, EnsureMin(reopened));
  }

  lemma BegunIsNew(h: Host, before: State, after: State)
    requires Sound(h) && Tied(h) && before.tasks == h.pool.tasks && before.nextId == h.pool.nextId && KindsStay(before, after)
    ensures Begun(before, after) !! h.failed
  {
  }

  lemma LostStays(s: State, reopened: State)
    requires Reached(s) && reopened == s.(draining := false)
    ensures |Lost(EnsureMin(reopened))| <= |Lost(s)| && EnsureMin(reopened).cfg == s.cfg
  {
    hide Reached, Buckets, Hands, Queue, InOrder;
    var home := ReachedIsGood(s);
    forall n: nat, purpose { FactoriesStay(reopened, n, purpose); }
    var warm := EnsureMin(reopened);
    assert forall r :: Attended(s, r) ==> Attended(warm, r) by {
      forall r | Attended(s, r) ensures Attended(warm, r) {
        if t :| t in s.tasks && s.tasks[t].Validating? && s.tasks[t].res == r { assert warm.tasks[t] == s.tasks[t]; }
      }
    }
    hide Attended, EnsureMin;
    SizeOfSubset(Lost(warm), Lost(s));
  }

  lemma {:induction false} SizeOfSubset<T>(a: set<T>, b: set<T>)
    requires a <= b
    ensures |a| <= |b|
  {
    if a != {} {
      var x :| x in a;
      SizeOfSubset(a - {x}, b - {x});
    }
  }

  /** Calm pool runs do not touch what a call awaits, other than by ending it. */
  lemma Waits(h: Host, c: nat, es: seq<Event>, s': State)
    requires Tied(h) && c in h.calls && CalmReach(h.pool, es, s')
    ensures forall t :: t in h.calls[c].awaits ==> Fits(h.calls[c], s'.tasks, t)
    ensures Reached(s') && s'.draining == h.pool.draining
  {
    hide Reached, CalmRun;
  }

  lemma ConnectEnds(h: Host, warm: Host, es: seq<Event>, warmed: State) returns (ready: Host)
    requires var d := h.nextCall;
      && d !in h.calls && d in warm.calls && warm.calls[d].Warming? && warm.calls == h.calls[d := warm.calls[d]]
      && warm.calls[d].awaits !! warm.failed && warm.calls[d].awaits !! warmed.tasks.Keys
    requires CalmReach(warm.pool, es, warmed) && !warm.pool.draining
    ensures ready == warm.(pool := warmed, calls := h.calls, status := READY)
    ensures Gets(warm, PoolMoves(es) + [MWarmed(h.nextCall, true)], ready)
  {
    hide Reached, Gets;
    var d := h.nextCall;
    var mid := warm.(pool := warmed);
    Lifts(warm, es, warmed);
    ready := Next(mid, MWarmed(d, true));
    assert warm.calls - {d} == h.calls;
    GetsOne(mid, MWarmed(d, true));
    GetsOn(warm, PoolMoves(es), mid, [MWarmed(d, true)], ready);
  }

  lemma CloseEnds(ready: Host, c: nat, es: seq<Event>, drained: State) returns (closed: Host)
    requires WillClose(ready, c) && ready.calls[c].awaits !! drained.tasks.Keys && CalmReach(ready.pool, es, drained)
    ensures closed == ready.(pool := drained, calls := ready.calls - {c}, status := CLOSED)
    ensures Gets(ready, PoolMoves(es) + [MClosed(c)], closed)
  {
    hide Reached, Gets;
    var mid := ready.(pool := drained);
    Lifts(ready, es, drained);
    closed := Next(mid, MClosed(c));
    GetsOne(mid, MClosed(c));
    GetsOn(ready, PoolMoves(es), mid, [MClosed(c)], closed);
  }

  /** That one slot is needed: a lost slot stays lost, and once all are lost nothing is idle. */
  lemma LostForGood(s: State, es: seq<Event>)
    requires Reached(s) && CanRun(s, es)
    ensures var s' := Run(s, es);
      Lost(s) <= Lost(s') && (|Lost(s)| >= s'.cfg.max ==> s'.idle == [])
  {
    hide Buckets, Hands, PoolInvariants.Orderly, Reached;
    var home := ReachedIsGood(s);
    var home' := StrandedByRun(s, home, es);
    var s' := Run(s, es);
    forall r | r in Lost(s) ensures r in Lost(s') {
      UnattendedIsStranded(s, home, r);
      UnattendedIsStranded(s', home', r);
    }
    SizeOfSubset(Lost(s), s'.active);
  }

  // ----- a run -----

  lemma GoStep(h: Host, m: Move, h': Host, ms: seq<Move>)
    requires CanMove(h, m) && Next(h, m) == h' && CanGo(h', ms)
    ensures CanGo(h, [m] + ms) && Go(h, [m] + ms) == Go(h', ms)
  {
    assert ([m] + ms)[1..] == ms;
  }

  /** An engine whose pool has one slot, none of it handed out. */
  function Engine(status: Status, calls: map<nat, Stage>, nextCall: nat, idle: seq<Res>, pending: int, draining: bool,
                  tasks: map<Id, Task>, nextId: Id, made: nat, destroyed: seq<Res>): Host {
    Host(Init(Config(1, 1, false)).(idle := idle, pending := pending, draining := draining, tasks := tasks,
                                    nextId := nextId, made := made, destroyed := destroyed), status, calls, nextCall, {})
  }

  const Warm := Creating(ForWarmth)

  /** The first `disconnect` waits for a slow destroy hook, the second has nothing to wait for. */
  function FirstHalf(rest: seq<Move>): seq<Move> {
    [MConnect] + ([MPool(ECreated(0, true))] + ([MWarmed(0, true)] + ([MDisconnect] + ([MDisconnect] + ([MClosed(2)] + rest)))))
  }

  /** A new `connect` succeeds before the hook returns. */
  function SecondHalf(): seq<Move> {
    [MConnect] + ([MPool(ECreated(2, true))] + ([MWarmed(3, true)] + ([MPool(EDrainOn(1))] + ([MClosed(1)] + []))))
  }

  /** So a CLOSED engine with nothing in flight can hold an idle connection. */
  lemma ClosedMayKeepAConnection()
    ensures var start := Fresh(Config(1, 1, false));
      CanGo(start, FirstHalf(SecondHalf())) &&
      var h := Go(start, FirstHalf(SecondHalf()));
      h.status == CLOSED && h.calls == map[] && h.pool.tasks == map[] && h.pool.idle == [1] && !h.pool.draining
  {
    hide SecondHalf, CanGo, Go;
    SecondHalfGoes();
    FirstHalfGoes(SecondHalf());
  }

  function Between(): Host {
    Engine(CLOSED, map[1 := Disconnecting({1})], 3, [], 0, true, map[1 := Draining([])], 2, 1, [0])
  }

  lemma FirstHalfGoes(rest: seq<Move>)
    requires CanGo(Between(), rest)
    ensures CanGo(Fresh(Config(1, 1, false)), FirstHalf(rest))
    ensures Go(Fresh(Config(1, 1, false)), FirstHalf(rest)) == Go(Between(), rest)
  {
    hide Next, CanMove, Go, CanGo;
    var h1 := Engine(CONNECTING, map[0 := Warming({0})], 1, [], 1, false, map[0 := Warm], 1, 0, []);
    var h2 := Engine(CONNECTING, map[0 := Warming({0})], 1, [0], 0, false, map[], 1, 1, []);
    var h3 := Engine(READY, map[], 1, [0], 0, false, map[], 1, 1, []);
    var h4 := Engine(READY, map[1 := Disconnecting({1})], 2, [], 0, true, map[1 := Draining([])], 2, 1, [0]);
    var h5 := h4.(calls := map[1 := Disconnecting({1}), 2 := Disconnecting({})], nextCall := 3);
    FirstMoves(h1, h2, h3);
    LaterMoves(h3, h4, h5);
    GoStep(h5, MClosed(2), Between(), rest);
    GoStep(h4, MDisconnect, h5, [MClosed(2)] + rest);
    GoStep(h3, MDisconnect, h4, [MDisconnect] + ([MClosed(2)] + rest));
    GoStep(h2, MWarmed(0, true), h3, [MDisconnect] + ([MDisconnect] + ([MClosed(2)] + rest)));
    GoStep(h1, MPool(ECreated(0, true)), h2, [MWarmed(0, true)] + ([MDisconnect] + ([MDisconnect] + ([MClosed(2)] + rest))));
    GoStep(Fresh(Config(1, 1, false)), MConnect, h1,
           [MPool(ECreated(0, true))] + ([MWarmed(0, true)] + ([MDisconnect] + ([MDisconnect] + ([MClosed(2)] + rest)))));
  }

  lemma FirstMoves(h1: Host, h2: Host, h3: Host)
    requires h1 == Engine(CONNECTING, map[0 := Warming({0})], 1, [], 1, false, map[0 := Warm], 1, 0, [])
    requires h2 == Engine(CONNECTING, map[0 := Warming({0})], 1, [0], 0, false, map[], 1, 1, [])
    requires h3 == Engine(READY, map[], 1, [0], 0, false, map[], 1, 1, [])
    ensures Next(Fresh(Config(1, 1, false)), MConnect) == h1
    ensures CanMove(h1, MPool(ECreated(0, true))) && Next(h1, MPool(ECreated(0, true))) == h2
    ensures CanMove(h2, MWarmed(0, true)) && Next(h2, MWarmed(0, true)) == h3
  {
    assert Begun(Init(Config(1, 1, false)), h1.pool) == {0};
    assert h1.pool.tasks - {0} == map[];
    assert h2.calls - {0} == map[];
  }

  lemma LaterMoves(h3: Host, h4: Host, h5: Host)
    requires h3 == Engine(READY, map[], 1, [0], 0, false, map[], 1, 1, [])
    requires h4 == Engine(READY, map[1 := Disconnecting({1})], 2, [], 0, true, map[1 := Draining([])], 2, 1, [0])
    requires h5 == h4.(calls := map[1 := Disconnecting({1}), 2 := Disconnecting({})], nextCall := 3)
    ensures Next(h3, MDisconnect) == h4 && Next(h4, MDisconnect) == h5
    ensures CanMove(h5, MClosed(2)) && Next(h5, MClosed(2)) == Between()
  {
    var draining := h3.pool.(draining := true);
    assert RejectAll(draining) == draining;
    var looping := Spawn(draining.(idle := []), Draining([0]));
    var rest: seq<Res> := [0];
    assert rest[1..] == [] && looping.tasks[1] == Draining(rest) && looping.nextId == 2;
    assert DrainOn(looping, 1).tasks == h4.pool.tasks;
    assert Drain(h3.pool) == h4.pool;
    assert Begun(h3.pool, h4.pool) == {1};
    assert Begun(h4.pool, h4.pool) == {};
  }

  lemma SecondHalfGoes()
    ensures CanGo(Between(), SecondHalf())
    ensures var h := Go(Between(), SecondHalf());
      h.status == CLOSED && h.calls == map[] && h.pool.tasks == map[] && h.pool.idle == [1] && !h.pool.draining
  {
    var calls := map[1 := Disconnecting({1}), 3 := Warming({2})];
    var loop := map[1 := Draining([])];
    var h1 := Engine(CONNECTING, calls, 4, [], 1, false, loop[2 := Warm], 3, 1, [0]);
    var h2 := Engine(CONNECTING, calls, 4, [1], 0, false, loop, 3, 2, [0]);
    var h3 := Engine(READY, map[1 := Disconnecting({1})], 4, [1], 0, false, loop, 3, 2, [0]);
    var h4 := Engine(READY, map[1 := Disconnecting({1})], 4, [1], 0, false, map[], 3, 2, [0]);
    var h5 := Engine(CLOSED, map[], 4, [1], 0, false, map[], 3, 2, [0]);
    Reconnects(h1);
    ReconnectMoves(h1, h2, h3);
    CloseMoves(h3, h4, h5);
    assert Go(h5, []) == h5;
    hide Next, CanMove, Go, CanGo;
    GoStep(h4, MClosed(1), h5, []);
    GoStep(h3, MPool(EDrainOn(1)), h4, [MClosed(1)] + []);
    GoStep(h2, MWarmed(3, true), h3, [MPool(EDrainOn(1))] + ([MClosed(1)] + []));
    GoStep(h1, MPool(ECreated(2, true)), h2, [MWarmed(3, true)] + ([MPool(EDrainOn(1))] + ([MClosed(1)] + [])));
    GoStep(Between(), MConnect, h1, [MPool(ECreated(2, true))] + ([MWarmed(3, true)] + ([MPool(EDrainOn(1))] + ([MClosed(1)] + []))));
  }

  lemma Reconnects(h1: Host)
    requires h1 == Engine(CONNECTING, map[1 := Disconnecting({1}), 3 := Warming({2})], 4, [], 1, false,
                          map[1 := Draining([]), 2 := Warm], 3, 1, [0])
    ensures Next(Between(), MConnect) == h1
  {
    var reopened := Between().pool.(draining := false);
    assert EnsureMin(reopened) == StartFactories(reopened, 1, ForWarmth);
    assert reopened.tasks.Keys == {1} && h1.pool.tasks.Keys == {1, 2};
    assert h1.pool.tasks == reopened.tasks[2 := Warm];
    assert EnsureMin(reopened) == h1.pool;
    assert Begun(reopened, h1.pool) == {1, 2} - {1} == {2};
    assert Connect(Between()).calls == h1.calls;
  }

  lemma ReconnectMoves(h1: Host, h2: Host, h3: Host)
    requires var calls, loop := map[1 := Disconnecting({1}), 3 := Warming({2})], map[1 := Draining([])];
      && h1 == Engine(CONNECTING, calls, 4, [], 1, false, loop[2 := Warm], 3, 1, [0])
      && h2 == Engine(CONNECTING, calls, 4, [1], 0, false, loop, 3, 2, [0])
      && h3 == Engine(READY, map[1 := Disconnecting({1})], 4, [1], 0, false, loop, 3, 2, [0])
    ensures CanMove(h1, MPool(ECreated(2, true))) && Next(h1, MPool(ECreated(2, true))) == h2
    ensures CanMove(h2, MWarmed(3, true)) && Next(h2, MWarmed(3, true)) == h3
  {
    assert h1.pool.tasks - {2} == h2.pool.tasks;
    assert h2.calls - {3} == h3.calls;
  }

  lemma CloseMoves(h3: Host, h4: Host, h5: Host)
    requires h3 == Engine(READY, map[1 := Disconnecting({1})], 4, [1], 0, false, map[1 := Draining([])], 3, 2, [0])
    requires h4 == Engine(READY, map[1 := Disconnecting({1})], 4, [1], 0, false, map[], 3, 2, [0])
    requires h5 == Engine(CLOSED, map[], 4, [1], 0, false, map[], 3, 2, [0])
    ensures CanMove(h3, MPool(EDrainOn(1))) && Next(h3, MPool(EDrainOn(1))) == h4
    ensures CanMove(h4, MClosed(1)) && Next(h4, MClosed(1)) == h5
  {
    assert h3.pool.tasks - {1} == map[];
    assert h4.calls - {1} == map[];
  }
}
