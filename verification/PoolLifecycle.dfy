/** `poolLifecycle.ts` on top of the pool: any number of `connect` and `disconnect` calls, overlapping each
    other and every pool stretch. */
module PoolLifecycle {
  import opened PoolModel
  import opened PoolInvariants
  import opened ConnectionPools
  import opened PoolTheorems
  import PoolOptions

  datatype Status = CLOSED | CONNECTING | READY

  /** Where a lifecycle call is suspended, and the pool's tasks it awaits: the factory calls `ensureMin` started, or
      the loop of a drain. A second drain awaits nothing. */
  datatype Stage =
    | Warming(awaits: set<Id>)       // connect: awaiting ensureMin
    | Retreating(awaits: set<Id>)    // connect: awaiting drain because a disconnect intervened
    | Failing(awaits: set<Id>)       // connect: awaiting drain after a failed warm-up
    | Disconnecting(awaits: set<Id>) // disconnect: awaiting drain

  /** `failed` holds the factory calls that failed. */
  datatype Host = Host(pool: State, status: Status, calls: map<nat, Stage>, nextCall: nat, failed: set<Id>)

  function Fresh(cfg: Config): Host {
    Host(Init(cfg), CLOSED, map[], 0, {})
  }

  /** The tasks a stretch started. */
  function Begun(s: State, s': State): set<Id> {
    s'.tasks.Keys - s.tasks.Keys
  }

  function Suspend(h: Host, stage: Stage): Host {
    h.(calls := h.calls[h.nextCall := stage], nextCall := h.nextCall + 1)
  }

  function Connect(h: Host): Host {
    if h.status != CLOSED then h
    else
      var reopened := h.pool.(draining := false);
      var warming := EnsureMin(reopened);
      Suspend(h.(status := CONNECTING, pool := warming), Warming(Begun(reopened, warming)))
  }

  /** The warm-up of the call `c` ended. */
  function Warmed(h: Host, c: nat, ok: bool): Host {
    var drained := Drain(h.pool);
    if !ok then h.(calls := h.calls[c := Failing(Begun(h.pool, drained))], pool := drained)
    else if h.pool.draining then h.(calls := h.calls[c := Retreating(Begun(h.pool, drained))], pool := drained)
    else h.(calls := h.calls - {c}, status := READY)
  }

  /** The drain the call `c` awaited ended. */
  function Closed(h: Host, c: nat): Host {
    h.(calls := h.calls - {c}, status := CLOSED)
  }

  function Disconnect(h: Host): Host {
    if h.status == CLOSED then h
    else Suspend(h.(pool := Drain(h.pool)), Disconnecting(Begun(h.pool, Drain(h.pool))))
  }

  datatype Move =
    | MConnect
    | MWarmed(c: nat, ok: bool)
    | MClosed(c: nat)
    | MDisconnect
    | MPool(e: Event)

  /** The pool is warmed up, drained and reopened only by lifecycle calls (and warmed by its own timers). A warm-up
      succeeds once every factory call it awaits has succeeded, and fails once one of them has failed; a drain ends
      with its loop. */
  predicate CanMove(h: Host, m: Move) {
    match m
    case MConnect => true
    case MDisconnect => true
    case MWarmed(c, ok) =>
      && c in h.calls && h.calls[c].Warming?
      && if ok then h.calls[c].awaits !! h.pool.tasks.Keys + h.failed else h.calls[c].awaits * h.failed != {}
    case MClosed(c) => c in h.calls && !h.calls[c].Warming? && h.calls[c].awaits !! h.pool.tasks.Keys
    case MPool(e) => Enabled(h.pool, e) && e != EEnsureMin && e != EDrain && e != EReopen
  }

  function Next(h: Host, m: Move): Host
    requires CanMove(h, m)
  {
    match m
    case MConnect => Connect(h)
    case MWarmed(c, ok) => Warmed(h, c, ok)
    case MClosed(c) => Closed(h, c)
    case MDisconnect => Disconnect(h)
    case MPool(e) =>
      h.(pool := Step(h.pool, e), failed := if e.ECreated? && !e.ok then h.failed + {e.t} else h.failed)
  }

  predicate CanGo(h: Host, ms: seq<Move>)
    decreases |ms|
  {
    ms == [] || (CanMove(h, ms[0]) && CanGo(Next(h, ms[0]), ms[1..]))
  }

  function Go(h: Host, ms: seq<Move>): Host
    requires CanGo(h, ms)
    decreases |ms|
  {
    if ms == [] then h else Go(Next(h, ms[0]), ms[1..])
  }

  lemma CreatedIsStep(s: State, t: Id, ok: bool)
    requires t in s.tasks && s.tasks[t].Creating?
    ensures Enabled(s, ECreated(t, ok)) && Step(s, ECreated(t, ok)) == Created(s, t, ok)
  {
  }

  lemma SoundIsReached(h: Host)
    requires Sound(h)
    ensures Reached(h.pool)
  {
  }

  // ----- the engine -----

  class PooledHost {
    const pool: ConnectionPool
    var status: Status
    var calls: map<nat, Stage>
    var nextCall: nat
    var failed: set<Id>

    ghost function Abs(): Host
      reads this, pool
    {
      Host(pool.Abs(), status, calls, nextCall, failed)
    }

    /** The pool is one a validated option leads to, and a draining engine has a call that will close it. */
    ghost predicate Valid()
      reads this, pool
    {
      Sound(Abs())
    }

    constructor (pool: ConnectionPool)
      requires pool.Valid() && pool.Abs() == Init(pool.cfg)
      ensures Valid() && this.pool == pool && Abs() == Fresh(pool.cfg)
    {
      this.pool := pool;
      status, calls, nextCall, failed := CLOSED, map[], 0, {};
    }

    method ConnectStart()
      requires Valid()
      modifies this, pool
      ensures Valid() && Abs() == Connect(old(Abs()))
    {
      hide Reached, Step, Drain, EnsureMin;
      NextKeeps(Abs(), MConnect);
      if status != CLOSED { return; }
      status := CONNECTING;
      pool.Reopen();
      var before := pool.around.tasks.Keys;
      pool.WarmUp();
      calls, nextCall := calls[nextCall := Warming(pool.around.tasks.Keys - before)], nextCall + 1;
    }

    /** A factory call of a warm-up answers; its failure is what `Promise.all` rejects with. */
    method WarmFactoryAnswered(t: Id, ok: bool)
      requires Valid() && t in pool.around.tasks && pool.around.tasks[t] == Creating(ForWarmth)
      modifies this, pool
      ensures Valid() && Abs() == Next(old(Abs()), MPool(ECreated(t, ok)))
    {
      hide Reached, Step, Created, Sound;
      CreatedIsStep(pool.Abs(), t, ok);
      NextKeeps(Abs(), MPool(ECreated(t, ok)));
      SoundIsReached(Abs());
      pool.CreatedWarm(t, ok);
      if !ok { failed := failed + {t}; }
    }

    method ConnectWarmed(c: nat, ok: bool)
      requires Valid() && CanMove(Abs(), MWarmed(c, ok))
      modifies this, pool
      ensures Valid() && Abs() == Warmed(old(Abs()), c, ok)
    {
      hide Reached, Step, Drain, EnsureMin;
      NextKeeps(Abs(), MWarmed(c, ok));
      var before := pool.around.tasks.Keys;
      if !ok {
        pool.DrainStart();
        calls := calls[c := Failing(pool.around.tasks.Keys - before)];
        return;
      }
      if pool.draining {
        pool.DrainStart();
        calls := calls[c := Retreating(pool.around.tasks.Keys - before)];
        return;
      }
      calls, status := calls - {c}, READY;
    }

    method DrainEnded(c: nat)
      requires Valid() && CanMove(Abs(), MClosed(c))
      modifies this
      ensures Valid() && Abs() == Closed(old(Abs()), c)
    {
      hide Reached, Step, Drain, EnsureMin;
      NextKeeps(Abs(), MClosed(c));
      calls, status := calls - {c}, CLOSED;
    }

    method DisconnectStart()
      requires Valid()
      modifies this, pool
      ensures Valid() && Abs() == Disconnect(old(Abs()))
    {
      hide Reached, Step, Drain, EnsureMin;
      NextKeeps(Abs(), MDisconnect);
      if status == CLOSED { return; }
      var before := pool.around.tasks.Keys;
      pool.DrainStart();
      calls, nextCall := calls[nextCall := Disconnecting(pool.around.tasks.Keys - before)], nextCall + 1;
    }
  }

  // ----- invariants -----

  /** A call that will set the status to CLOSED. */
  predicate WillClose(h: Host, c: nat) {
    c in h.calls && !h.calls[c].Warming?
  }

  ghost predicate Sound(h: Host) {
    && Reached(h.pool)
    && (forall c :: c in h.calls ==> c < h.nextCall)
    && (h.pool.draining && h.status != CLOSED ==> exists c :: WillClose(h, c))
    && (h.status == CONNECTING ==> h.calls != map[])
  }

  lemma {:induction false} FactoriesDraining(s: State, n: nat, purpose: Purpose)
    ensures StartFactories(s, n, purpose).draining == s.draining
    decreases n
  {
    if n != 0 {
      FactoriesDraining(Spawn(s.(pending := s.pending + 1), Creating(purpose)), n - 1, purpose);
    }
  }

  lemma WarmUpDraining(s: State)
    ensures EnsureMin(s).draining == s.draining
  {
    forall n: nat, purpose { FactoriesDraining(s, n, purpose); }
  }

  lemma {:induction false} PumpDraining(s: State, live: nat, throws: seq<bool>)
    ensures PumpOn(s, live, throws).draining == s.draining
    decreases live
  {
    hide DropSettled;
    if live > 0 && Size(s) < s.cfg.max {
      PumpDraining(if throws != [] && throws[0] then FailOne(s) else Spawn(s.(pending := s.pending + 1), Creating(ForWaiter)),
                   live - 1, if throws == [] then [] else throws[1..]);
    }
  }

  lemma {:induction false} DrainDrains(s: State)
    ensures Drain(s).draining
  {
    if !s.draining {
      RejectAllDraining(s.(draining := true));
    }
  }

  lemma {:induction false} RejectAllDraining(s: State)
    ensures RejectAll(s).draining == s.draining
    decreases |s.waiters|
  {
    if s.waiters != [] {
      if s.waiters[0].ticket in s.settled {
        RejectAllDraining(s.(waiters := s.waiters[1..]));
      } else {
        RejectAllDraining(SettleHead(s).(results := s.results[s.waiters[0].call := PoolDraining]));
      }
    }
  }

  /** Only `drain` and `connect` change the flag. */
  lemma StepDraining(s: State, e: Event)
    requires Enabled(s, e) && e != EDrain && e != EReopen
    ensures Step(s, e).draining == s.draining
  {
    hide EnsureMin, PumpOn, RejectAll, DropSettled, CountLive, StartFactories;
    match e
    case EPumped(t, throws) => PumpDraining(Finish(s, t), CountLive(s.waiters, s.settled), throws);
    case EEnsureMin => WarmUpDraining(s);
    case EIdleTimeout(r) => WarmUpDraining(s.(idleTimers := s.idleTimers - {r}));
    case _ =>
  }

  lemma NextKeeps(h: Host, m: Move)
    requires Sound(h) && CanMove(h, m)
    ensures Sound(Next(h, m))
    ensures h.pool.draining && m != MConnect ==> Next(h, m).pool.draining
    ensures m.MWarmed? && !m.ok ==> Next(h, m).pool.draining
  {
    hide Reached, Step, Drain, EnsureMin;
    var h' := Next(h, m);
    match m
    case MConnect =>
      ReachedStep(h.pool, EReopen);
      StepFacts(h.pool);
      ReachedStep(h.pool.(draining := false), EEnsureMin);
      StepFacts(h.pool.(draining := false));
      WarmUpDraining(h.pool.(draining := false));
      assert h.status == CLOSED ==> h.nextCall in h'.calls;
    case MDisconnect =>
      ReachedStep(h.pool, EDrain);
      StepFacts(h.pool);
      DrainDrains(h.pool);
      assert h.status != CLOSED ==> WillClose(h', h.nextCall);
    case MWarmed(c, ok) =>
      ReachedStep(h.pool, EDrain);
      StepFacts(h.pool);
      DrainDrains(h.pool);
      assert !ok || h.pool.draining ==> WillClose(h', c);
    case MClosed(c) =>
    case MPool(e) =>
      ReachedStep(h.pool, e);
      StepDraining(h.pool, e);
      assert forall c :: WillClose(h, c) ==> WillClose(h', c);
  }

  lemma StepFacts(s: State)
    ensures Step(s, EReopen) == s.(draining := false)
    ensures Step(s, EEnsureMin) == EnsureMin(s)
    ensures Step(s, EDrain) == Drain(s)
  {
  }

  lemma {:induction false} GoKeeps(h: Host, ms: seq<Move>)
    requires Sound(h) && CanGo(h, ms)
    ensures Sound(Go(h, ms))
    ensures h.pool.draining && MConnect !in ms ==> Go(h, ms).pool.draining
    decreases |ms|
  {
    hide Sound, Next, CanMove;
    if ms != [] {
      NextKeeps(h, ms[0]);
      GoKeeps(Next(h, ms[0]), ms[1..]);
    }
  }

  lemma FreshIsSound(o: PoolOptions.PoolOption)
    requires PoolOptions.Validate(o)
    ensures Sound(Fresh(ConfigOf(o)))
  {
    assert Reaches(o, [], Init(ConfigOf(o)));
  }

  // ----- results -----

  /** No stranded pool. However many `connect` and `disconnect` calls overlap, a draining pool whose engine is
      not CLOSED has a call in flight that will set CLOSED; so once every call has returned the engine is CLOSED
      or READY, and READY means acquirers are let in. */
  lemma NoStrandedPool(o: PoolOptions.PoolOption, ms: seq<Move>)
    requires PoolOptions.Validate(o) && CanGo(Fresh(ConfigOf(o)), ms)
    ensures var h := Go(Fresh(ConfigOf(o)), ms);
      && (h.pool.draining && h.status != CLOSED ==> exists c :: WillClose(h, c) && Closed(h, c).status == CLOSED)
      && (h.calls == map[] ==> h.status != CONNECTING && (h.status == READY ==> !h.pool.draining))
  {
    hide Reached;
    FreshIsSound(o);
    GoKeeps(Fresh(ConfigOf(o)), ms);
    var h := Go(Fresh(ConfigOf(o)), ms);
    if h.pool.draining && h.status != CLOSED {
      var c :| WillClose(h, c);
      assert Closed(h, c).status == CLOSED;
    }
  }

  /** A failed `connect` reclaims what it warmed. From the failure on, as long as no `connect` starts, the idle
      list stays empty; and when nothing is suspended any more, every resource ever created is still with its
      acquirer or was destroyed exactly once. */
  lemma FailedConnectLeavesNothing(o: PoolOptions.PoolOption, before: seq<Move>, c: nat, after: seq<Move>)
    requires PoolOptions.Validate(o) && CanGo(Fresh(ConfigOf(o)), before)
    requires CanMove(Go(Fresh(ConfigOf(o)), before), MWarmed(c, false))
    requires MConnect !in after && CanGo(Warmed(Go(Fresh(ConfigOf(o)), before), c, false), after)
    ensures var h := Go(Warmed(Go(Fresh(ConfigOf(o)), before), c, false), after);
      h.pool.idle == [] &&
      (h.pool.tasks == map[] ==>
        forall r: Res :: r < h.pool.made ==> r in h.pool.active || multiset(h.pool.destroyed)[r] == 1)
  {
    hide Reached, Drain, Places;
    var failing := Go(Fresh(ConfigOf(o)), before);
    FreshIsSound(o);
    GoKeeps(Fresh(ConfigOf(o)), before);
    NextKeeps(failing, MWarmed(c, false));
    assert Next(failing, MWarmed(c, false)) == Warmed(failing, c, false);
    GoKeeps(Warmed(failing, c, false), after);
    var h := Go(Warmed(failing, c, false), after);
    DrainingKeepsNothing(h.pool);
    if h.pool.tasks == map[] {
      forall r: Res | r < h.pool.made ensures r in h.pool.active || multiset(h.pool.destroyed)[r] == 1 {
        Quiescent(h.pool, r);
      }
    }
  }
}
