/** What each event does for callers, waiters and resources, over every state a pool can reach: what a caller gets, who is
    served, where a resource ends up, and that nothing else changes. */
module PoolEffects {
  import opened PoolModel
  import opened PoolInvariants
  import opened PoolTheorems

  // ----- the ways a resource or a waiter can go -----

  /** `r` is last in the idle list, and will be evicted later if the pool is above its floor with it. */
  function Idled(s: State, r: Res): State {
    s.(idle := s.idle + [r],
       idleTimers := if s.cfg.evicts && |s.idle| + 1 + |s.active| > s.cfg.min then s.idleTimers + {r} else s.idleTimers)
  }

  /** The first waiter leaves the queue with this outcome, and its timeout is stopped. */
  function Left(s: State, outcome: Outcome): State
    requires s.waiters != []
  {
    var first := s.waiters[0];
    s.(waiters := s.waiters[1..], settled := s.settled + {first.ticket}, armed := s.armed - {first.ticket},
       results := s.results[first.call := outcome])
  }

  /** The first waiter gets `r`, or it is idle if nobody waits. */
  function Served(s: State, r: Res): State {
    if s.waiters == [] then Idled(s, r)
    else Left(s, Got(r)).(active := s.active + {r}, held := s.held[s.waiters[0].call := r])
  }

  /** `r` has gone to the destroy hook. */
  function Gone(s: State, r: Res): State {
    s.(destroyed := s.destroyed + [r])
  }

  /** So many factory calls have been started, and nothing else. */
  ghost predicate Started(s: State, s': State, n: nat, purpose: Purpose) {
    && s' == s.(pending := s.pending + n, nextId := s.nextId + n, tasks := s'.tasks)
    && (forall t :: t in s'.tasks <==> t in s.tasks || s.nextId <= t < s.nextId + n)
    && (forall t :: t in s.tasks && !(s.nextId <= t < s.nextId + n) ==> s'.tasks[t] == s.tasks[t])
    && (forall t :: s.nextId <= t < s.nextId + n ==> s'.tasks[t] == Creating(purpose))
  }

  /** Settled waiters are not in the queue, so none is ever skipped. */
  lemma QueueIsLive(s: State)
    requires Reached(s)
    ensures DropSettled(s.waiters, s.settled) == s.waiters && CountLive(s.waiters, s.settled) == |s.waiters|
  {
    hide Reached, Buckets, Hands, Queue, Calls, InOrder;
    var home := ReachedIsGood(s);
    NoneSettled(s);
  }

  // ----- acquire -----

  /** The longest idle resource is claimed; without one a slot is reserved if there is room, counting all that is active,
      being created or handed over; otherwise the call queues at the end. */
  function Sought(s: State, call: Id, timed: bool): State {
    if s.idle != [] then
      s.(idle := s.idle[1..], idleTimers := s.idleTimers - {s.idle[0]}, active := s.active + {s.idle[0]},
         tasks := s.tasks[call := Validating(s.idle[0], timed)])
    else if |s.active| + s.pending + |s.handoff| < s.cfg.max then
      s.(pending := s.pending + 1, tasks := s.tasks[call := Creating(ForCaller)])
    else
      s.(waiters := s.waiters + [Waiter(|s.arrivals|, call)], arrivals := s.arrivals + [call],
         armed := if timed then s.armed + {|s.arrivals|} else s.armed)
  }

  lemma LookSeeks(s: State, call: Id, timed: bool)
    ensures Look(s, call, timed) == Sought(s, call, timed)
  {
  }

  /** `acquire` is refused while the pool drains, and otherwise seeks a resource. */
  lemma AcquireSeeks(s: State, timed: bool)
    ensures var s', call := Step(s, EAcquire(timed)), s.nextId;
      if s.draining then s' == s.(nextId := call + 1, results := s.results[call := PoolDraining])
      else s' == Sought(s.(nextId := call + 1), call, timed)
  {
    hide Look, Sought;
    LookSeeks(s.(nextId := s.nextId + 1), s.nextId, timed);
  }

  /** A claimed resource that is valid is the caller's; one that is not goes to the destroy hook before the caller looks
      again; a throw rejects the caller and leaves the resource claimed. */
  lemma ValidationDecides(s: State, call: Id, check: Check)
    requires Reached(s) && Enabled(s, EValidated(call, check))
    ensures var s', r := Step(s, EValidated(call, check)), s.tasks[call].res;
      match check
      case Valid => s' == s.(tasks := s.tasks - {call}, results := s.results[call := Got(r)], held := s.held[call := r])
      case Invalid => s' == Gone(s.(active := s.active - {r}, tasks := s.tasks[call := Discarding(s.tasks[call].timed)]), r)
      case Threw => s' == s.(tasks := s.tasks - {call}, results := s.results[call := ValidateThrew])
  {
    hide Reached;
    var home := ReachedIsGood(s);
    assert Grips(call, s.tasks[call], home);
    assert s.active + {s.tasks[call].res} == s.active;
  }

  /** Once its invalid resource is destroyed the caller seeks again, even if the pool drains by now. */
  lemma DiscardedSeeksAgain(s: State, call: Id)
    requires Enabled(s, EDiscarded(call))
    ensures Step(s, EDiscarded(call)) == Sought(s.(tasks := s.tasks - {call}), call, s.tasks[call].timed)
  {
    hide Look, Sought;
    LookSeeks(s.(tasks := s.tasks - {call}), call, s.tasks[call].timed);
  }

  // ----- factories -----

  /** A new resource is for whom the factory was called: the caller; the first waiter, or the idle list; or the idle list,
      whoever waits. While draining those for waiters and for warmth are destroyed. */
  lemma CreatedGoesWhereItShould(s: State, t: Id)
    requires Reached(s) && Enabled(s, ECreated(t, true))
    ensures var s', r := Step(s, ECreated(t, true)), s.made;
            var made := s.(tasks := s.tasks - {t}, pending := s.pending - 1, made := r + 1);
      match s.tasks[t].purpose
      case ForCaller => s' == made.(active := s.active + {r}, results := s.results[t := Got(r)], held := s.held[t := r])
      case ForWaiter => s' == if s.draining then Gone(made, r) else Served(made, r)
      case ForWarmth => s' == if s.draining then Gone(made, r) else Idled(made, r)
  {
    hide Reached;
    QueueIsLive(s);
    var made := s.(tasks := s.tasks - {t}, pending := s.pending - 1, made := s.made + 1);
    DeliverServes(made, s.made);
    ParkIdles(made, s.made);
    hide Deliver, Park;
  }

  /** A failed factory call frees its slot, and fails the caller, or the first waiter, or nobody. */
  lemma FailureFailsOne(s: State, t: Id)
    requires Reached(s) && Enabled(s, ECreated(t, false))
    ensures var s' := Step(s, ECreated(t, false));
            var freed := s.(tasks := s.tasks - {t}, pending := s.pending - 1);
      match s.tasks[t].purpose
      case ForCaller => s' == freed.(results := s.results[t := CreateFailed])
      case ForWaiter => s' == if s.waiters == [] then freed else Left(freed, CreateFailed)
      case ForWarmth => s' == freed
  {
    hide Reached;
    QueueIsLive(s);
    FailOneLeaves(s.(tasks := s.tasks - {t}, pending := s.pending - 1));
    hide FailOne;
  }

  lemma DeliverServes(s: State, r: Res)
    requires DropSettled(s.waiters, s.settled) == s.waiters
    ensures Deliver(s, r) == Served(s, r)
  {
    hide Park, Idled;
    ParkIdles(s, r);
  }

  lemma ParkIdles(s: State, r: Res)
    ensures Park(s, r) == Idled(s, r)
  {
  }

  lemma FailOneLeaves(s: State)
    requires DropSettled(s.waiters, s.settled) == s.waiters
    ensures FailOne(s) == if s.waiters == [] then s else Left(s, CreateFailed)
  {
  }

  // ----- release, hand-off, destroy -----

  /** A released resource is taken from its holder. While draining it is destroyed. If nobody waits it is last in the idle
      list. If somebody waits it is claimed for hand-off, out of everybody's reach, and validated; the idle list and the
      queue stay as they are. */
  lemma ReleaseServesTheQueue(s: State, call: Id)
    requires Reached(s) && call in s.held
    ensures var s', r := Step(s, ERelease(call)), s.held[call];
            var back := s.(held := s.held - {call}, active := s.active - {r});
      s' == if s.draining then Gone(back, r)
            else if s.waiters == [] then Idled(back, r)
            else back.(handoff := s.handoff + {r}, tasks := s.tasks[s.nextId := Handing(r)], nextId := s.nextId + 1)
  {
    hide Reached;
    QueueIsLive(s);
    HandOutIsExclusive(s, call, call);
    ParkIdles(s.(held := s.held - {call}, active := s.active - {s.held[call]}), s.held[call]);
    hide Park;
  }

  /** A resource that passed its hand-off validation is the first waiter's; if the queue has emptied it is idle. One that
      failed is destroyed, and the waiters are pumped after that. While draining it is destroyed either way. */
  lemma HandOffServesTheQueue(s: State, t: Id, valid: bool)
    requires Reached(s) && Enabled(s, EHanded(t, valid))
    ensures var s', r := Step(s, EHanded(t, valid)), s.tasks[t].res;
            var freed := s.(tasks := s.tasks - {t}, handoff := s.handoff - {r});
      s' == if s.draining then Gone(freed, r)
            else if valid then Served(freed, r)
            else Gone(freed.(tasks := s.tasks[t := Pumping]), r)
  {
    hide Reached, Buckets, Hands, Queue, Calls, InOrder;
    QueueIsLive(s);
    var r := s.tasks[t].res;
    var freed := s.(tasks := s.tasks - {t}, handoff := s.handoff - {r});
    if s.draining {
    } else if valid {
      DeliverServes(freed, r);
      hide Deliver;
    } else {
      var home := ReachedIsGood(s);
      var lifted, up := HandClaimed(s, home, t);
      UnfitIsForgotten(s, t, lifted, r);
      assert lifted.tasks[t := Pumping] == s.tasks[t := Pumping];
    }
  }

  /** What its holder destroys is out of every bucket and gone, and the waiters are pumped after that. */
  lemma DestroyForgets(s: State, call: Id)
    requires Reached(s) && call in s.held
    ensures var s', r := Step(s, EDestroy(call)), s.held[call];
      s' == Gone(s.(held := s.held - {call}, active := s.active - {r}, tasks := s.tasks[s.nextId := Pumping], nextId := s.nextId + 1), r)
  {
    hide Reached;
    HeldIsNowhereElse(s, call);
    RemoveAbsent(s.idle, s.held[call]);
    assert s.handoff - {s.held[call]} == s.handoff && s.idleTimers - {s.held[call]} == s.idleTimers;
  }

  lemma HeldIsNowhereElse(s: State, call: Id)
    requires Reached(s) && call in s.held
    ensures s.held[call] !in s.idle && s.held[call] !in s.handoff && s.held[call] !in s.idleTimers
  {
    hide Reached;
    var home := ReachedIsGood(s);
    assert home[s.held[call]] == AtActive(Held(call));
  }

  // ----- pump, warm-up -----

  lemma {:induction false} FactoriesStarted(s: State, n: nat, purpose: Purpose)
    requires forall t :: t in s.tasks ==> t < s.nextId
    ensures Started(s, StartFactories(s, n, purpose), n, purpose)
    decreases n
  {
    if n != 0 {
      FactoriesStarted(Spawn(s.(pending := s.pending + 1), Creating(purpose)), n - 1, purpose);
    }
  }

  lemma TasksAreNumbered(s: State)
    requires Reached(s)
    ensures forall t :: t in s.tasks ==> t < s.nextId
  {
    var home := ReachedIsGood(s);
  }

  /** `ensureMin` starts exactly the factory calls missing to the floor, and none while draining. */
  lemma WarmUpFillsToTheFloor(s: State)
    requires Reached(s)
    ensures var need := s.cfg.min - (|s.idle| + |s.active| + s.pending + |s.handoff|);
      Started(s, Step(s, EEnsureMin), if s.draining || need <= 0 then 0 else need, ForWarmth)
  {
    hide Reached;
    TasksAreNumbered(s);
    CapacityHolds(s);
    var need := s.cfg.min - Size(s);
    if !s.draining && need > 0 { FactoriesStarted(s, need, ForWarmth); }
    hide StartFactories;
  }

  /** How many of the first `k` turns throw; those beyond the list do not. */
  function Thrown(throws: seq<bool>, k: nat): nat {
    if k == 0 || throws == [] then 0 else (if throws[0] then 1 else 0) + Thrown(throws[1..], k - 1)
  }

  /** The first `m` waiters leave, failed. */
  function FirstFail(s: State, m: nat): State
    requires m <= |s.waiters|
    decreases m
  {
    if m == 0 then s else FirstFail(Left(s, CreateFailed), m - 1)
  }

  lemma {:induction false} StartedBesides(s: State, s': State, m: nat, n: nat)
    requires Started(s, s', n, ForWaiter) && m <= |s.waiters|
    ensures m <= |s'.waiters| && Started(FirstFail(s, m), FirstFail(s', m), n, ForWaiter)
    decreases m
  {
    if m > 0 { StartedBesides(Left(s, CreateFailed), Left(s', CreateFailed), m - 1, n); }
  }

  lemma {:induction false} FailedAside(s: State, m: nat)
    requires m <= |s.waiters|
    ensures var s' := FirstFail(s, m); s'.tasks == s.tasks && s'.nextId == s.nextId && s'.pending == s.pending && |s'.waiters| == |s.waiters| - m
    decreases m
  {
    if m > 0 { FailedAside(Left(s, CreateFailed), m - 1); }
  }

  /** So many turns of the pump: `n` factory calls started and the first `m` waiters failed, until the waiters are through
      or there is no room. */
  ghost predicate Turns(s: State, s': State, live: nat, throws: seq<bool>, n: nat, m: nat) {
    && n + m <= live <= |s.waiters| && m == Thrown(throws, n + m)
    && Started(FirstFail(s, m), s', n, ForWaiter)
    && (n + m == live || Size(s) + n >= s.cfg.max)
  }

  function Later(throws: seq<bool>): seq<bool> {
    if throws == [] then [] else throws[1..]
  }

  lemma {:induction false} PumpTurns(s: State, home: seq<Home>, live: nat, throws: seq<bool>) returns (n: nat, m: nat)
    requires Inv(s, home) && live <= |s.waiters|
    ensures Turns(s, PumpOn(s, live, throws), live, throws, n, m)
    decreases live
  {
    hide Inv, FailOne, StartFactories, Left, Turns;
    n, m := 0, 0;
    if live == 0 || Size(s) >= s.cfg.max {
      NoTurn(s, live, throws);
    } else if throws != [] && throws[0] {
      InvFacts(s, home);
      FailOneKeeps(s, home);
      FailOneLeaves(s);
      LeftLeaves(s);
      n, m := PumpTurns(FailOne(s), home, live - 1, Later(throws));
      FailingTurn(s, PumpOn(FailOne(s), live - 1, Later(throws)), live, throws, n, m);
      m := m + 1;
    } else {
      InvFacts(s, home);
      OneStarts(s);
      StartFactoriesKeeps(s, home, 1, ForWaiter);
      var started := Spawn(s.(pending := s.pending + 1), Creating(ForWaiter));
      n, m := PumpTurns(started, home, live - 1, Later(throws));
      StartingTurn(s, started, PumpOn(started, live - 1, Later(throws)), live, throws, n, m);
      n := n + 1;
    }
  }

  lemma NoTurn(s: State, live: nat, throws: seq<bool>)
    requires live <= |s.waiters| && (live == 0 || Size(s) >= s.cfg.max)
    ensures Turns(s, s, live, throws, 0, 0)
  {
  }

  lemma FailingTurn(s: State, s': State, live: nat, throws: seq<bool>, n: nat, m: nat)
    requires 0 < live <= |s.waiters| && throws != [] && throws[0]
    requires Turns(Left(s, CreateFailed), s', live - 1, Later(throws), n, m)
    ensures Turns(s, s', live, throws, n, m + 1)
  {
    hide Started, Left;
    LeftLeaves(s);
  }

  lemma StartingTurn(s: State, started: State, s': State, live: nat, throws: seq<bool>, n: nat, m: nat)
    requires 0 < live <= |s.waiters| && (throws == [] || !throws[0])
    requires started == Spawn(s.(pending := s.pending + 1), Creating(ForWaiter)) && Started(s, started, 1, ForWaiter)
    requires Turns(started, s', live - 1, Later(throws), n, m)
    ensures Turns(s, s', live, throws, n + 1, m)
  {
    hide Started, FirstFail;
    OneMore(s, started, s', n, m);
    if throws == [] { NoneThrown(n + m); NoneThrown(n + m + 1); }
  }

  lemma NoneThrown(k: nat)
    ensures Thrown([], k) == 0
  {
  }

  lemma LeftLeaves(s: State)
    requires s.waiters != []
    ensures var s' := Left(s, CreateFailed); |s'.waiters| == |s.waiters| - 1 && Size(s') == Size(s) && s'.cfg == s.cfg
  {
  }

  lemma InvFacts(s: State, home: seq<Home>)
    requires Inv(s, home)
    ensures DropSettled(s.waiters, s.settled) == s.waiters && forall t :: t in s.tasks ==> t < s.nextId
  {
    hide Buckets, Hands, Queue, InOrder;
    NoneSettled(s);
  }

  lemma OneStarts(s: State)
    requires forall t :: t in s.tasks ==> t < s.nextId
    ensures StartFactories(s, 1, ForWaiter) == Spawn(s.(pending := s.pending + 1), Creating(ForWaiter))
    ensures Started(s, Spawn(s.(pending := s.pending + 1), Creating(ForWaiter)), 1, ForWaiter)
  {
    FactoriesStarted(s, 1, ForWaiter);
    var started := Spawn(s.(pending := s.pending + 1), Creating(ForWaiter));
    assert StartFactories(started, 0, ForWaiter) == started;
    hide Started;
  }

  lemma OneMore(s: State, started: State, s': State, n: nat, m: nat)
    requires Started(s, started, 1, ForWaiter) && m <= |s.waiters| == |started.waiters|
    requires Started(FirstFail(started, m), s', n, ForWaiter)
    ensures Started(FirstFail(s, m), s', n + 1, ForWaiter)
  {
    StartedBesides(s, started, m, 1);
    FailedAside(s, m);
    FailedAside(started, m);
    hide FirstFail;
  }

  /** After a destroy the waiters are pumped, unless the pool drains: one turn for each waiter as long as there is room. A
      turn starts a factory call, or, if the factory throws at once, fails the waiter who is first then. */
  lemma PumpTakesATurnForEachWaiter(s: State, t: Id, throws: seq<bool>) returns (n: nat, m: nat)
    requires Reached(s) && Enabled(s, EPumped(t, throws))
    ensures var s', done := Step(s, EPumped(t, throws)), s.(tasks := s.tasks - {t});
      if s.draining then s' == done
      else
        && n + m <= |s.waiters| && m == Thrown(throws, n + m)
        && Started(FirstFail(done, m), s', n, ForWaiter)
        && (n + m == |s.waiters| || |s.idle| + |s.active| + s.pending + |s.handoff| + n >= s.cfg.max)
  {
    hide Reached, Buckets, Hands, Queue, Calls, InOrder, PumpOn, FirstFail, Started;
    n, m := 0, 0;
    QueueIsLive(s);
    hide Turns;
    if !s.draining {
      var home := ReachedIsGood(s);
      CallsFinish(s, t);
      FactoryFinish(s.tasks, t);
      HandsPlain(s.tasks, s.held, home, t, Pumping);
      n, m := PumpTurns(Finish(s, t), home, |s.waiters|, throws);
      TurnsSay(Finish(s, t), Step(s, EPumped(t, throws)), |s.waiters|, throws, n, m);
    }
  }

  lemma TurnsSay(s: State, s': State, live: nat, throws: seq<bool>, n: nat, m: nat)
    requires Turns(s, s', live, throws, n, m)
    ensures n + m <= live <= |s.waiters| && m == Thrown(throws, n + m) && Started(FirstFail(s, m), s', n, ForWaiter)
    ensures n + m == live || Size(s) + n >= s.cfg.max
  {
  }

  // ----- drain -----

  /** These waiters, and nobody else, have been settled with this outcome, and their timeouts stopped. */
  ghost predicate AllOut(ws: seq<Waiter>, outcome: Outcome, settled: set<nat>, settled': set<nat>, armed: set<nat>, armed': set<nat>,
                         results: map<Id, Outcome>, results': map<Id, Outcome>) {
    && (forall k :: k in settled' <==> k in settled || exists w :: w in ws && w.ticket == k)
    && (forall k :: k in armed' <==> k in armed && forall w :: w in ws ==> w.ticket != k)
    && (forall call :: call in results' <==> call in results || exists w :: w in ws && w.call == call)
    && (forall w :: w in ws ==> w.call in results' && results'[w.call] == outcome)
    && (forall call :: call in results && (forall w :: w in ws ==> w.call != call) ==> results'[call] == results[call])
  }

  /** Every waiter of the queue has left with this outcome. */
  ghost predicate AllLeft(s: State, s': State, outcome: Outcome) {
    && s' == s.(waiters := [], settled := s'.settled, armed := s'.armed, results := s'.results)
    && AllOut(s.waiters, outcome, s.settled, s'.settled, s.armed, s'.armed, s.results, s'.results)
  }

  lemma OneMoreOut(w: Waiter, ws: seq<Waiter>, outcome: Outcome, settled: set<nat>, settled': set<nat>, armed: set<nat>, armed': set<nat>,
                   results: map<Id, Outcome>, results': map<Id, Outcome>)
    requires AllOut(ws, outcome, settled + {w.ticket}, settled', armed - {w.ticket}, armed', results[w.call := outcome], results')
    ensures AllOut([w] + ws, outcome, settled, settled', armed, armed', results, results')
  {
    assert forall v :: v in [w] + ws <==> v == w || v in ws;
    if forall v :: v in ws ==> v.call != w.call { assert results'[w.call] == outcome; }
  }

  lemma {:induction false} RejectAllClears(s: State)
    requires Ascending(s.waiters) && forall w :: w in s.waiters ==> w.ticket !in s.settled
    ensures AllLeft(s, RejectAll(s), PoolDraining)
    decreases |s.waiters|
  {
    if s.waiters == [] {
      assert AllOut([], PoolDraining, s.settled, s.settled, s.armed, s.armed, s.results, s.results);
    } else {
      hide AllOut;
      var w := s.waiters[0];
      var next := Left(s, PoolDraining);
      HeadIsFirst(s.waiters);
      RejectAllClears(next);
      var s' := RejectAll(next);
      assert s' == RejectAll(s);
      OneMoreOut(w, s.waiters[1..], PoolDraining, s.settled, s'.settled, s.armed, s'.armed, s.results, s'.results);
    }
  }

  lemma HeadIsFirst(ws: seq<Waiter>)
    requires Ascending(ws) && ws != []
    ensures ws == [ws[0]] + ws[1..] && ws[0] in ws
    ensures forall w :: w in ws[1..] ==> w in ws && w.ticket > ws[0].ticket
  {
  }

  /** `drain` refuses everybody in the queue, empties the idle list at once, and passes the longest idle resource to the
      destroy hook; the others are its to pass on. A second drain does nothing. */
  lemma DrainEmptiesThePool(s: State) returns (refused: State)
    requires Reached(s)
    ensures var s' := Step(s, EDrain);
      if s.draining then s' == s
      else
        && AllLeft(s.(draining := true), refused, PoolDraining)
        && s' == if s.idle == [] then refused.(nextId := s.nextId + 1)
                 else Gone(refused.(idle := [], idleTimers := s.idleTimers - {s.idle[0]},
                                    tasks := s.tasks[s.nextId := Draining(s.idle[1..])], nextId := s.nextId + 1), s.idle[0])
  {
    hide Reached;
    refused := RejectAll(s.(draining := true));
    if !s.draining {
      TasksAreNumbered(s);
      QueueIsOrdered(s);
      RejectAllClears(s.(draining := true));
      hide RejectAll, AllOut, Drain;
      DrainTakesTheIdle(s, refused);
    }
  }

  lemma DrainTakesTheIdle(s: State, refused: State)
    requires !s.draining && refused == RejectAll(s.(draining := true)) && refused.nextId !in refused.tasks
    ensures Drain(s) ==
      if refused.idle == [] then refused.(nextId := refused.nextId + 1)
      else Gone(refused.(idle := [], idleTimers := refused.idleTimers - {refused.idle[0]},
                         tasks := refused.tasks[refused.nextId := Draining(refused.idle[1..])], nextId := refused.nextId + 1), refused.idle[0])
  {
    hide RejectAll;
    var t := refused.nextId;
    if refused.idle == [] {
      assert refused.tasks[t := Draining(refused.idle)] - {t} == refused.tasks;
    } else {
      assert refused.tasks[t := Draining(refused.idle)][t := Draining(refused.idle[1..])] == refused.tasks[t := Draining(refused.idle[1..])];
    }
  }

  lemma QueueIsOrdered(s: State)
    requires Reached(s)
    ensures Ascending(s.waiters) && forall w :: w in s.waiters ==> w.ticket !in s.settled
  {
    hide Reached;
    var home := ReachedIsGood(s);
  }

  /** The loop of a drain passes its resources to the destroy hook one by one, and then is over. */
  lemma DrainGoesOn(s: State, t: Id)
    requires Enabled(s, EDrainOn(t))
    ensures var s', rest := Step(s, EDrainOn(t)), s.tasks[t].rest;
      s' == if rest == [] then s.(tasks := s.tasks - {t})
            else Gone(s.(idleTimers := s.idleTimers - {rest[0]}, tasks := s.tasks[t := Draining(rest[1..])]), rest[0])
  {
  }

  // ----- timers -----

  /** An idle resource whose time is up is destroyed if the pool is above its floor without counting what is being created
      or handed over; if the pool is below its floor it is warmed up instead, unless it drains. */
  lemma EvictionRespectsTheFloor(s: State, r: Res)
    requires Reached(s) && Enabled(s, EIdleTimeout(r))
    ensures var s', off, size := Step(s, EIdleTimeout(r)), s.(idleTimers := s.idleTimers - {r}), |s.idle| + |s.active|;
      && (r in s.idle && size > s.cfg.min ==> exists i ::
            0 <= i < |s.idle| && s.idle[i] == r && s' == Gone(off.(idle := s.idle[..i] + s.idle[i + 1..]), r))
      && (r !in s.idle || size == s.cfg.min || (size < s.cfg.min && s.draining) ==> s' == off)
      && (r in s.idle && size < s.cfg.min && !s.draining ==>
            var need := s.cfg.min - (size + s.pending + |s.handoff|);
            Started(off, s', if need <= 0 then 0 else need, ForWarmth))
  {
    hide Reached;
    CapacityHolds(s);
    TasksAreNumbered(s);
    hide StartFactories, RemoveFirst, Started;
    var off := s.(idleTimers := s.idleTimers - {r});
    if r in s.idle { var i := RemoveFirstAt(s.idle, r); }
    forall n: nat { FactoriesStarted(off, n, ForWarmth); }
    NoFactory(off);
  }

  lemma NoFactory(s: State)
    ensures Started(s, s, 0, ForWarmth)
  {
  }

  lemma {:induction false} RemoveFirstAt(rs: seq<Res>, r: Res) returns (i: nat)
    requires r in rs
    ensures i < |rs| && rs[i] == r && RemoveFirst(rs, r) == rs[..i] + rs[i + 1..]
  {
    if rs[0] == r {
      i := 0;
    } else {
      var j := RemoveFirstAt(rs[1..], r);
      i := j + 1;
      assert rs[..i] == [rs[0]] + rs[1..][..j] && rs[i + 1..] == rs[1..][j + 1..];
    }
  }

  /** A waiter whose time is up leaves its place in the queue, wherever it is, and is refused. */
  lemma TimeoutLeavesTheQueue(s: State, w: Waiter) returns (i: nat)
    requires Reached(s) && Enabled(s, EAcquireTimeout(w))
    ensures i < |s.waiters| && s.waiters[i] == w
    ensures Step(s, EAcquireTimeout(w)) ==
      s.(waiters := s.waiters[..i] + s.waiters[i + 1..], settled := s.settled + {w.ticket}, armed := s.armed - {w.ticket},
         results := s.results[w.call := TimedOut])
  {
    hide Reached, RemoveWaiter;
    ArmedWaits(s, w);
    i := RemoveWaiterAt(s.waiters, w);
  }

  lemma ArmedWaits(s: State, w: Waiter)
    requires Reached(s) && Enabled(s, EAcquireTimeout(w))
    ensures w in s.waiters && w.ticket !in s.settled
  {
    hide Reached;
    var home := ReachedIsGood(s);
    assert w == Waiter(w.ticket, s.arrivals[w.ticket]);
  }

  lemma {:induction false} RemoveWaiterAt(ws: seq<Waiter>, w: Waiter) returns (i: nat)
    requires w in ws
    ensures i < |ws| && ws[i] == w && RemoveWaiter(ws, w) == ws[..i] + ws[i + 1..]
  {
    if ws[0] == w {
      i := 0;
    } else {
      var j := RemoveWaiterAt(ws[1..], w);
      i := j + 1;
      assert ws[..i] == [ws[0]] + ws[1..][..j] && ws[i + 1..] == ws[1..][j + 1..];
    }
  }

  lemma ReopenOpens(s: State)
    ensures Step(s, EReopen) == s.(draining := false)
  {
  }

  // ----- nothing is stuck -----

  /** What a suspended call may be answered. */
  ghost predicate CanEnd(s: State, t: Id)
    requires t in s.tasks
  {
    match s.tasks[t]
    case Validating(_, _) => forall check :: Enabled(s, EValidated(t, check))
    case Discarding(_) => Enabled(s, EDiscarded(t))
    case Creating(_) => forall ok :: Enabled(s, ECreated(t, ok))
    case Handing(_) => forall valid :: Enabled(s, EHanded(t, valid))
    case Pumping => forall throws :: Enabled(s, EPumped(t, throws))
    case Draining(_) => Enabled(s, EDrainOn(t))
  }

  /** Every suspended call can end, with any answer; a holder can release or destroy; and a set timer can fire. */
  lemma EverythingCanGoOn(s: State)
    requires Reached(s)
    ensures forall t :: t in s.tasks ==> CanEnd(s, t)
    ensures forall call :: call in s.held ==> Enabled(s, ERelease(call)) && Enabled(s, EDestroy(call))
    ensures forall r :: r in s.idleTimers ==> Enabled(s, EIdleTimeout(r))
    ensures forall n :: n in s.armed ==> n < |s.arrivals| && Enabled(s, EAcquireTimeout(Waiter(n, s.arrivals[n])))
  {
    hide Reached, Buckets, Hands, Calls, InOrder;
    var home := ReachedIsGood(s);
  }
}
