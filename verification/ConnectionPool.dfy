/** `ConnectionPool.ts` itself: one object, its fields, and a method for each uninterrupted stretch.

    `around` stands for the surroundings: the suspended calls (promises the pool awaits), the outcomes
    delivered to acquirers, and the calls of the destroy hook. Each method is proved to take the pool from one
    state of `PoolModel` to the next, whole state included. */
module ConnectionPools {
  import opened PoolModel
  import opened PoolTheorems
  import PoolOptions

  datatype Surroundings = Surroundings(
    tasks: map<Id, Task>, nextId: Id,
    arrivals: seq<Id>, results: map<Id, Outcome>, held: map<Id, Res>,
    made: nat, destroyed: seq<Res>)

  class ConnectionPool {
    const cfg: Config

    var idle: seq<Res>
    var active: set<Res>
    var waiters: seq<Waiter>
    var settled: set<nat>  // the waiters' `settled` flags
    var armed: set<nat>    // the waiters whose timeout is set
    var idleTimers: set<Res>
    var pending: int
    var handoff: set<Res>
    var draining: bool

    var around: Surroundings

    ghost function Abs(): State
      reads this
    {
      State(cfg, idle, active, handoff, pending, waiters, settled, armed, idleTimers, draining,
            around.tasks, around.nextId, around.arrivals, around.results, around.held, around.made, around.destroyed)
    }

    /** The pool is in a state a pool with an accepted option can reach, so whatever is proved of those holds of it. */
    ghost predicate Valid()
      reads this
    {
      Reached(Abs())
    }

    constructor (o: PoolOptions.PoolOption)
      requires PoolOptions.Validate(o)
      ensures Valid() && Abs() == Init(ConfigOf(o))
    {
      cfg := ConfigOf(o);
      idle, active, waiters, settled, armed, idleTimers, pending, handoff, draining :=
        [], {}, [], {}, {}, {}, 0, {}, false;
      around := Surroundings(map[], 0, [], map[], map[], 0, []);
      new;
      assert Reaches(o, [], Init(ConfigOf(o)));
    }

    lemma Capacity()
      ensures Valid() ==> Size(Abs()) <= cfg.max
    {
      if Valid() { CapacityHolds(Abs()); }
    }

    function CurrentSize(): (n: int)
      reads this
      ensures n == Size(Abs())
      ensures Valid() ==> n <= cfg.max
    {
      Capacity();
      |idle| + |active| + pending + |handoff|
    }

    // ----- internals -----

    /** Calls the destroy hook; what follows in the caller runs only after it settles. */
    method PassToDestroyHook(resource: Res)
      modifies this`around
      ensures Abs() == Doom(old(Abs()), resource)
    {
      around := around.(destroyed := around.destroyed + [resource]);
    }

    method ReturnToIdle(resource: Res)
      modifies this`idle, this`idleTimers
      ensures Abs() == Park(old(Abs()), resource)
    {
      idle := idle + [resource];
      if cfg.evicts && |idle| + |active| > cfg.min {
        idleTimers := idleTimers + {resource};
      }
    }

    method HasLiveWaiter() returns (live: bool)
      ensures live <==> CountLive(waiters, settled) > 0
    {
      var i := 0;
      while i < |waiters|
        invariant 0 <= i <= |waiters|
        invariant CountLive(waiters[i..], settled) == CountLive(waiters, settled)
      {
        if waiters[i].ticket !in settled { return true; }
        i := i + 1;
      }
      return false;
    }

    /** Takes settled waiters off the head of the queue, then the first live one. */
    method ShiftLiveWaiter() returns (found: bool, waiter: Waiter)
      modifies this`waiters, this`settled, this`armed
      ensures var q := old(Abs()).(waiters := DropSettled(old(waiters), old(settled)));
        (found <==> q.waiters != []) &&
        (found ==> waiter == q.waiters[0]) &&
        Abs() == if found then SettleHead(q) else q
    {
      waiter := Waiter(0, 0);
      while |waiters| > 0
        invariant DropSettled(waiters, settled) == DropSettled(old(waiters), old(settled))
        invariant settled == old(settled) && armed == old(armed)
      {
        waiter := waiters[0];
        waiters := waiters[1..];
        if waiter.ticket in settled { continue; }
        settled := settled + {waiter.ticket};
        armed := armed - {waiter.ticket};
        return true, waiter;
      }
      found := false;
    }

    method DeliverToWaiter(resource: Res)
      modifies this
      ensures Abs() == Deliver(old(Abs()), resource)
    {
      var found, waiter := ShiftLiveWaiter();
      if found {
        active := active + {resource};
        around := around.(results := around.results[waiter.call := Got(resource)], held := around.held[waiter.call := resource]);
      } else {
        ReturnToIdle(resource);
      }
    }

    method PumpWaiters(throws: seq<bool>)
      modifies this
      ensures Abs() == Pump(old(Abs()), throws)
    {
      if draining { return; }
      var live, i := 0, 0;
      while i < |waiters|
        invariant 0 <= i <= |waiters| && live >= 0
        invariant live + CountLive(waiters[i..], settled) == CountLive(waiters, settled)
      {
        if waiters[i].ticket !in settled { live := live + 1; }
        i := i + 1;
      }
      ghost var start := Abs();
      var k := 0;
      while live > 0 && CurrentSize() < cfg.max
        invariant live >= 0
        invariant PumpOn(Abs(), live, if k <= |throws| then throws[k..] else []) == PumpOn(start, CountLive(start.waiters, start.settled), throws)
      {
        hide FailOne, CountLive;
        live := live - 1;
        if k < |throws| && throws[k] { RejectOne(); } else { StartFactory(ForWaiter); }
        k := k + 1;
      }
    }

    /** The synchronous start of `__createForWaiter` and `__createWarm`. */
    method StartFactory(purpose: Purpose)
      modifies this`pending, this`around
      ensures Abs() == Spawn(old(Abs()).(pending := old(pending) + 1), Creating(purpose))
    {
      pending := pending + 1;
      around := around.(tasks := around.tasks[around.nextId := Creating(purpose)], nextId := around.nextId + 1);
    }

    // ----- acquire -----

    method AcquireStart(timed: bool)
      requires Valid()
      modifies this
      ensures Valid() && Abs() == Acquire(old(Abs()), timed)
    {
      hide Reached, Step;
      ReachedAcquire(Abs(), timed);
      var call := around.nextId;
      around := around.(nextId := around.nextId + 1);
      if draining {
        around := around.(results := around.results[call := PoolDraining]);
      } else {
        LookForResource(call, timed);
      }
    }

    method LookForResource(call: Id, timed: bool)
      modifies this
      ensures Abs() == Look(old(Abs()), call, timed)
    {
      if |idle| > 0 {
        var resource := idle[0];
        idle := idle[1..];
        idleTimers := idleTimers - {resource};
        active := active + {resource};
        around := around.(tasks := around.tasks[call := Validating(resource, timed)]);
      } else if CurrentSize() < cfg.max {
        pending := pending + 1;
        around := around.(tasks := around.tasks[call := Creating(ForCaller)]);
      } else {
        Enqueue(call, timed);
      }
    }

    method Enqueue(call: Id, timed: bool)
      modifies this`waiters, this`armed, this`around
      ensures var ticket := |old(around.arrivals)|;
        Abs() == old(Abs()).(waiters := old(waiters) + [Waiter(ticket, call)], arrivals := old(around.arrivals) + [call],
                             armed := if timed then old(armed) + {ticket} else old(armed))
    {
      var waiter := Waiter(|around.arrivals|, call);
      around := around.(arrivals := around.arrivals + [call]);
      if timed { armed := armed + {waiter.ticket}; }
      waiters := waiters + [waiter];
    }

    /** `validate` answered for an idle resource claimed by `call`. */
    method AcquireValidated(call: Id, resource: Res, check: Check)
      requires Valid() && Enabled(Abs(), EValidated(call, check)) && around.tasks[call].res == resource
      modifies this
      ensures Valid() && Abs() == Validated(old(Abs()), call, check)
    {
      hide Reached, Step;
      ReachedValidated(Abs(), call, check);
      var timed := around.tasks[call].timed;
      match check
      case Valid =>
        around := around.(tasks := around.tasks - {call}, results := around.results[call := Got(resource)], held := around.held[call := resource]);
        active := active + {resource};
      case Invalid =>
        active := active - {resource};
        around := around.(tasks := around.tasks[call := Discarding(timed)]);
        PassToDestroyHook(resource);
      case Threw =>
        around := around.(tasks := around.tasks - {call}, results := around.results[call := ValidateThrew]);
    }

    method AcquireDiscarded(call: Id)
      requires Valid() && Enabled(Abs(), EDiscarded(call))
      modifies this
      ensures Valid() && Abs() == Discarded(old(Abs()), call)
    {
      hide Reached, Step;
      ReachedDiscarded(Abs(), call);
      var timed := around.tasks[call].timed;
      around := around.(tasks := around.tasks - {call});
      LookForResource(call, timed);
    }

    /** The factory answered an acquirer; a fresh resource is the next number. */
    method AcquireCreated(t: Id, ok: bool)
      requires Valid() && Enabled(Abs(), ECreated(t, ok)) && around.tasks[t] == Creating(ForCaller)
      modifies this
      ensures Valid() && Abs() == Created(old(Abs()), t, ok)
    {
      hide Reached, Step, Deliver, FailOne, Park, Doom, CountLive, DropSettled, StartFactories;
      ReachedCreated(Abs(), t, ok);
      pending, around := pending - 1, around.(tasks := around.tasks - {t});
      if ok {
        var resource := around.made;
        active, around := active + {resource}, around.(made := around.made + 1);
        around := around.(results := around.results[t := Got(resource)], held := around.held[t := resource]);
      } else {
        around := around.(results := around.results[t := CreateFailed]);
      }
    }

    method CreatedForWaiter(t: Id, ok: bool)
      requires Valid() && Enabled(Abs(), ECreated(t, ok)) && around.tasks[t] == Creating(ForWaiter)
      modifies this
      ensures Valid() && Abs() == Created(old(Abs()), t, ok)
    {
      hide Reached, Step, Deliver, FailOne, Park, Doom, CountLive, DropSettled, StartFactories;
      ReachedCreated(Abs(), t, ok);
      pending, around := pending - 1, around.(tasks := around.tasks - {t});
      if !ok {
        RejectOne();
        return;
      }
      var resource := around.made;
      around := around.(made := around.made + 1);
      if draining {
        PassToDestroyHook(resource);
        return;
      }
      DeliverToWaiter(resource);
    }

    method RejectOne()
      modifies this
      ensures Abs() == FailOne(old(Abs()))
    {
      var found, waiter := ShiftLiveWaiter();
      if found {
        around := around.(results := around.results[waiter.call := CreateFailed]);
      }
    }

    method CreatedWarm(t: Id, ok: bool)
      requires Valid() && Enabled(Abs(), ECreated(t, ok)) && around.tasks[t] == Creating(ForWarmth)
      modifies this
      ensures Valid() && Abs() == Created(old(Abs()), t, ok)
    {
      hide Reached, Step, Deliver, FailOne, Park, Doom, CountLive, DropSettled, StartFactories;
      ReachedCreated(Abs(), t, ok);
      pending, around := pending - 1, around.(tasks := around.tasks - {t});
      if !ok { return; }
      var resource := around.made;
      around := around.(made := around.made + 1);
      if draining {
        PassToDestroyHook(resource);
        return;
      }
      ReturnToIdle(resource);
    }

    method AcquireTimedOut(waiter: Waiter)
      requires Valid() && Enabled(Abs(), EAcquireTimeout(waiter))
      modifies this
      ensures Valid() && Abs() == AcquireTimeout(old(Abs()), waiter)
    {
      hide Reached, Step;
      ReachedAcquireTimeout(Abs(), waiter);
      if waiter.ticket in settled { return; }
      settled := settled + {waiter.ticket};
      armed := armed - {waiter.ticket};
      waiters := RemoveWaiter(waiters, waiter);
      around := around.(results := around.results[waiter.call := TimedOut]);
    }

    // ----- release and destroy -----

    /** A resource the pool does not count as handed out is ignored. */
    method ReleaseResource(resource: Res)
      modifies this
      ensures Abs() == GiveBack(old(Abs()), resource)
    {
      if resource !in active { return; }
      active := active - {resource};
      if draining {
        PassToDestroyHook(resource);
        return;
      }
      var live := HasLiveWaiter();
      if !live {
        ReturnToIdle(resource);
        return;
      }
      handoff := handoff + {resource};
      around := around.(tasks := around.tasks[around.nextId := Handing(resource)], nextId := around.nextId + 1);
    }

    method HandOffValidated(t: Id, resource: Res, valid: bool)
      requires Valid() && Enabled(Abs(), EHanded(t, valid)) && around.tasks[t].res == resource
      modifies this
      ensures Valid() && Abs() == Handed(old(Abs()), t, valid)
    {
      hide Reached, Step, Deliver;
      ReachedHanded(Abs(), t, valid);
      handoff := handoff - {resource};
      if draining {
        around := around.(tasks := around.tasks - {t});
        PassToDestroyHook(resource);
        return;
      }
      if valid {
        around := around.(tasks := around.tasks - {t});
        DeliverToWaiter(resource);
        return;
      }
      around := around.(tasks := around.tasks[t := Pumping]);
      ForgetAndDestroy(resource);
    }

    /** `destroy` up to its await. */
    method ForgetAndDestroy(resource: Res)
      modifies this
      ensures Abs() == Forget(old(Abs()), resource)
    {
      active := active - {resource};
      handoff := handoff - {resource};
      idle := RemoveFirst(idle, resource);
      idleTimers := idleTimers - {resource};
      PassToDestroyHook(resource);
    }

    method DestroyResource(resource: Res)
      modifies this
      ensures Abs() == Forget(Spawn(old(Abs()), Pumping), resource)
    {
      around := around.(tasks := around.tasks[around.nextId := Pumping], nextId := around.nextId + 1);
      ForgetAndDestroy(resource);
    }

    method DestroyFinished(t: Id, throws: seq<bool>)
      requires Valid() && Enabled(Abs(), EPumped(t, throws))
      modifies this
      ensures Valid() && Abs() == Pumped(old(Abs()), t, throws)
    {
      hide Reached, Step;
      ReachedPumped(Abs(), t, throws);
      around := around.(tasks := around.tasks - {t});
      PumpWaiters(throws);
    }

    // ----- warm-up, eviction, drain -----

    method StartWarm()
      modifies this
      ensures Abs() == EnsureMin(old(Abs()))
    {
      if cfg.min <= 0 { return; }
      var need := cfg.min - CurrentSize();
      if need <= 0 { return; }
      if draining { return; }
      ghost var start := Abs();
      for i := 0 to need
        invariant StartFactories(Abs(), need - i, ForWarmth) == EnsureMin(start)
      {
        StartFactory(ForWarmth);
      }
    }

    method IdleTimerFired(resource: Res)
      requires Valid() && Enabled(Abs(), EIdleTimeout(resource))
      modifies this
      ensures Valid() && Abs() == IdleTimeout(old(Abs()), resource)
    {
      hide Reached, Step;
      ReachedIdleTimeout(Abs(), resource);
      idleTimers := idleTimers - {resource};
      if resource !in idle { return; }
      var size := |idle| + |active|;
      if size > cfg.min {
        idle := RemoveFirst(idle, resource);
        PassToDestroyHook(resource);
        return;
      }
      if size < cfg.min && !draining {
        StartWarm();
      }
    }

    method RejectWaiters()
      modifies this
      ensures Abs() == RejectAll(old(Abs()))
    {
      while |waiters| > 0
        invariant RejectAll(Abs()) == RejectAll(old(Abs()))
      {
        var waiter := waiters[0];
        waiters := waiters[1..];
        if waiter.ticket in settled { continue; }
        settled, armed := settled + {waiter.ticket}, armed - {waiter.ticket};
        around := around.(results := around.results[waiter.call := PoolDraining]);
      }
    }

    method DrainStart()
      requires Valid()
      modifies this
      ensures Valid() && Abs() == Drain(old(Abs()))
    {
      hide Reached, Step, RejectAll;
      ReachedDrain(Abs());
      if draining { return; }
      draining := true;
      RejectWaiters();
      var t := around.nextId;
      idle, around := [], around.(tasks := around.tasks[t := Draining(idle)], nextId := t + 1);
      DrainTurn(t);
    }

    method DrainTurn(t: Id)
      requires t in around.tasks && around.tasks[t].Draining?
      modifies this
      ensures Abs() == DrainOn(old(Abs()), t)
    {
      var toDestroy := around.tasks[t].rest;
      if toDestroy == [] {
        around := around.(tasks := around.tasks - {t});
      } else {
        idleTimers := idleTimers - {toDestroy[0]};
        around := around.(tasks := around.tasks[t := Draining(toDestroy[1..])]);
        PassToDestroyHook(toDestroy[0]);
      }
    }

    method Reopen()
      requires Valid()
      modifies this`draining
      ensures Valid() && Abs() == old(Abs()).(draining := false)
    {
      hide Reached;
      ReachedStep(Abs(), EReopen);
      draining := false;
    }

    // ----- the holder of a resource, and calls of their own -----

    /** The holder gives its resource back. */
    method ReleaseHeld(call: Id)
      requires Valid() && call in around.held
      modifies this
      ensures Valid() && Abs() == Release(old(Abs()), call)
    {
      hide Reached, Step, GiveBack;
      ReachedRelease(Abs(), call);
      var resource := around.held[call];
      around := around.(held := around.held - {call});
      ReleaseResource(resource);
    }

    /** The holder has its resource destroyed. */
    method DestroyHeld(call: Id)
      requires Valid() && call in around.held
      modifies this
      ensures Valid() && Abs() == Destroy(old(Abs()), call)
    {
      hide Reached, Step, Forget;
      ReachedDestroy(Abs(), call);
      var resource := around.held[call];
      around := around.(held := around.held - {call});
      DestroyResource(resource);
    }

    method WarmUp()
      requires Valid()
      modifies this
      ensures Valid() && Abs() == EnsureMin(old(Abs()))
    {
      hide Reached, Step;
      ReachedWarmUp(Abs());
      StartWarm();
    }

    method DrainNext(t: Id)
      requires Valid() && Enabled(Abs(), EDrainOn(t))
      modifies this
      ensures Valid() && Abs() == DrainOn(old(Abs()), t)
    {
      hide Reached, Step;
      ReachedDrainOn(Abs(), t);
      DrainTurn(t);
    }
  }

  // ----- what each event reaches -----

  lemma ReachedAcquire(s: State, timed: bool)
    requires Reached(s) && Enabled(s, EAcquire(timed))
    ensures Reached(Acquire(s, timed))
  {
    ReachedStep(s, EAcquire(timed));
  }

  lemma ReachedValidated(s: State, call: Id, check: Check)
    requires Reached(s) && Enabled(s, EValidated(call, check))
    ensures Reached(Validated(s, call, check))
  {
    ReachedStep(s, EValidated(call, check));
  }

  lemma ReachedDiscarded(s: State, call: Id)
    requires Reached(s) && Enabled(s, EDiscarded(call))
    ensures Reached(Discarded(s, call))
  {
    ReachedStep(s, EDiscarded(call));
  }

  lemma ReachedCreated(s: State, t: Id, ok: bool)
    requires Reached(s) && Enabled(s, ECreated(t, ok))
    ensures Reached(Created(s, t, ok))
  {
    ReachedStep(s, ECreated(t, ok));
  }

  lemma ReachedAcquireTimeout(s: State, waiter: Waiter)
    requires Reached(s) && Enabled(s, EAcquireTimeout(waiter))
    ensures Reached(AcquireTimeout(s, waiter))
  {
    ReachedStep(s, EAcquireTimeout(waiter));
  }

  lemma ReachedHanded(s: State, t: Id, valid: bool)
    requires Reached(s) && Enabled(s, EHanded(t, valid))
    ensures Reached(Handed(s, t, valid))
  {
    ReachedStep(s, EHanded(t, valid));
  }

  lemma ReachedPumped(s: State, t: Id, throws: seq<bool>)
    requires Reached(s) && Enabled(s, EPumped(t, throws))
    ensures Reached(Pumped(s, t, throws))
  {
    ReachedStep(s, EPumped(t, throws));
  }

  lemma ReachedIdleTimeout(s: State, resource: Res)
    requires Reached(s) && Enabled(s, EIdleTimeout(resource))
    ensures Reached(IdleTimeout(s, resource))
  {
    ReachedStep(s, EIdleTimeout(resource));
  }

  lemma ReachedDrain(s: State)
    requires Reached(s) && Enabled(s, EDrain)
    ensures Reached(Drain(s))
  {
    ReachedStep(s, EDrain);
  }

  lemma ReachedRelease(s: State, call: Id)
    requires Reached(s) && Enabled(s, ERelease(call))
    ensures Reached(Release(s, call))
  {
    ReachedStep(s, ERelease(call));
  }

  lemma ReachedDestroy(s: State, call: Id)
    requires Reached(s) && Enabled(s, EDestroy(call))
    ensures Reached(Destroy(s, call))
  {
    ReachedStep(s, EDestroy(call));
  }

  lemma ReachedWarmUp(s: State)
    requires Reached(s) && Enabled(s, EEnsureMin)
    ensures Reached(EnsureMin(s))
  {
    ReachedStep(s, EEnsureMin);
  }

  lemma ReachedDrainOn(s: State, t: Id)
    requires Reached(s) && Enabled(s, EDrainOn(t))
    ensures Reached(DrainOn(s, t))
  {
    ReachedStep(s, EDrainOn(t));
  }
}
