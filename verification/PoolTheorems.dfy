/** What holds of the pool after any run, from any option the check accepts. */
module PoolTheorems {
  import opened PoolModel
  import opened PoolInvariants
  import PoolOptions

  function ConfigOf(o: PoolOptions.PoolOption): (cfg: Config)
    requires PoolOptions.Validate(o)
    ensures cfg.min <= cfg.max && 1 <= cfg.max
  {
    PoolOptions.AcceptsExactlySoundSizes(o);
    var r := PoolOptions.Resolve(o);
    Config(r.min.Floor, r.max.Floor, r.idleTimeoutMs > 0.0)
  }

  /** The pool's sizes are those of the option, and it evicts iff the option gives an idle time. */
  lemma ConfigIsTheOptions(o: PoolOptions.PoolOption)
    requires PoolOptions.Validate(o)
    ensures var cfg, r := ConfigOf(o), PoolOptions.Resolve(o);
      cfg.min as real == r.min && cfg.max as real == r.max && (cfg.evicts <==> r.idleTimeoutMs > 0.0)
  {
    PoolOptions.AcceptsExactlySoundSizes(o);
  }

  ghost predicate Reached(s: State) {
    exists o, es :: Reaches(o, es, s)
  }

  ghost predicate Reaches(o: PoolOptions.PoolOption, es: seq<Event>, s: State) {
    PoolOptions.Validate(o) && CanRun(Init(ConfigOf(o)), es) && s == Run(Init(ConfigOf(o)), es)
  }

  lemma {:induction false} RunExtends(s: State, es: seq<Event>, e: Event)
    requires CanRun(s, es) && Enabled(Run(s, es), e)
    ensures CanRun(s, es + [e]) && Run(s, es + [e]) == Step(Run(s, es), e)
    decreases |es|
  {
    hide Step, Enabled;
    if es == [] {
      assert es + [e] == [e];
      assert Run(Step(s, e), []) == Step(s, e);
    } else {
      RunExtends(Step(s, es[0]), es[1..], e);
      assert (es + [e])[1..] == es[1..] + [e];
    }
  }

  lemma ReachedStep(s: State, e: Event)
    requires Reached(s) && Enabled(s, e)
    ensures Reached(Step(s, e))
  {
    hide Step, Enabled, Run, CanRun;
    var o, es :| Reaches(o, es, s);
    RunExtends(Init(ConfigOf(o)), es, e);
    assert Reaches(o, es + [e], Step(s, e));
  }

  lemma ReachedIsGood(s: State) returns (home: seq<Home>)
    requires Reached(s)
    ensures Inv(s, home)
  {
    hide Inv;
    var o, es :| Reaches(o, es, s);
    FreshPool(ConfigOf(o));
    RunKeeps(Init(ConfigOf(o)), es);
    home :| Inv(s, home);
  }

  /** Capacity: the pool never owns more than `max`, counting what is being created or handed over. */
  lemma CapacityHolds(s: State)
    requires Reached(s)
    ensures Size(s) <= s.cfg.max
    ensures s.pending == |InFactory(s.tasks)|
  {
    var home := ReachedIsGood(s);
  }

  // ----- conservation -----

  ghost function DrainsWith(s: State, r: Res): set<Id> {
    set t | t in s.tasks && s.tasks[t].Draining? && r in s.tasks[t].rest
  }

  /** In how many places a resource is: destroy hook calls made for it included. */
  ghost function Places(s: State, r: Res): nat {
    multiset(s.idle)[r] + (if r in s.active then 1 else 0) + (if r in s.handoff then 1 else 0) +
    multiset(s.destroyed)[r] + |DrainsWith(s, r)|
  }

  lemma {:induction false} CountOnce<T>(xs: seq<T>, x: T)
    requires NoDup(xs)
    ensures multiset(xs)[x] == if x in xs then 1 else 0
  {
    if xs != [] {
      CountOnce(xs[1..], x);
      assert xs == [xs[0]] + xs[1..];
    }
  }

  /** Conservation: every resource ever created is in exactly one place, and no other resource is anywhere.
      So the destroy hook has run at most once for it, and not while anything else still had it. */
  lemma EachInOnePlace(s: State, r: Res)
    requires Reached(s)
    ensures Places(s, r) == if r < s.made then 1 else 0
    ensures forall t :: t in s.tasks && s.tasks[t].Draining? ==> NoDup(s.tasks[t].rest)
  {
    var home := ReachedIsGood(s);
    CountOnce(s.idle, r);
    CountOnce(s.destroyed, r);
    assert forall t :: t in s.tasks && s.tasks[t].Draining? ==> Grips(t, s.tasks[t], home);
    if r < s.made && home[r].AtDrain? {
      assert InHand(s.tasks, s.held, r, home[r]);
      assert DrainsWith(s, r) == {home[r].t};
    } else {
      assert DrainsWith(s, r) == {};
    }
  }

  /** Once nothing is suspended, every resource ever created is idle, handed out, or was destroyed once. */
  lemma Quiescent(s: State, r: Res)
    requires Reached(s) && s.tasks == map[] && r < s.made
    ensures s.handoff == {} && s.pending == 0
    ensures (if r in s.idle then 1 else 0) + (if r in s.active then 1 else 0) + multiset(s.destroyed)[r] == 1
    ensures s.draining ==> r in s.active || multiset(s.destroyed)[r] == 1
  {
    var home := ReachedIsGood(s);
    EachInOnePlace(s, r);
    CountOnce(s.idle, r);
    assert InFactory(s.tasks) == {};
    assert DrainsWith(s, r) == {};
    assert forall q: Res :: q in s.handoff ==> InHand(s.tasks, s.held, q, home[q]);
  }

  // ----- who holds what -----

  /** No resource is held by two acquirers, nor held while a suspended call works on it. */
  lemma HandOutIsExclusive(s: State, a: Id, b: Id)
    requires Reached(s) && a in s.held && b in s.held
    ensures s.held[a] == s.held[b] ==> a == b
    ensures s.held[a] in s.active && a in s.results && s.results[a] == Got(s.held[a])
    ensures forall t :: t in s.tasks ==> match s.tasks[t]
      case Validating(r, _) => r != s.held[a]
      case Handing(r) => r != s.held[a]
      case Draining(rest) => s.held[a] !in rest
      case _ => true
  {
    var home := ReachedIsGood(s);
    assert forall t :: t in s.tasks ==> Grips(t, s.tasks[t], home);
  }

  /** The resources whose validation threw inside `acquire`, over a run. */
  ghost function ThrownOn(s: State, es: seq<Event>): set<Res>
    requires CanRun(s, es)
    decreases |es|
  {
    if es == [] then {}
    else
      (if es[0].EValidated? && es[0].check == Threw then {s.tasks[es[0].call].res} else {}) +
      ThrownOn(Step(s, es[0]), es[1..])
  }

  lemma {:induction false} StrandedByRun(s: State, home: seq<Home>, es: seq<Event>) returns (home': seq<Home>)
    requires Inv(s, home) && CanRun(s, es)
    ensures Inv(Run(s, es), home') && |home| <= |home'|
    ensures forall q: Res :: q < |home'| ==>
      (home'[q] == AtActive(Stranded) <==> (q < |home| && home[q] == AtActive(Stranded)) || q in ThrownOn(s, es))
    decreases |es|
  {
    hide Inv;
    if es == [] {
      home' := home;
    } else {
      var mid := StepKeeps(s, home, es[0]);
      home' := StrandedByRun(Step(s, es[0]), mid, es[1..]);
    }
  }

  ghost predicate Attended(s: State, r: Res) {
    (exists call :: call in s.held && s.held[call] == r) ||
    (exists t :: t in s.tasks && s.tasks[t].Validating? && s.tasks[t].res == r)
  }

  lemma UnattendedIsStranded(s: State, home: seq<Home>, r: Res)
    requires Inv(s, home)
    ensures r in s.active && !Attended(s, r) <==> r < |home| && home[r] == AtActive(Stranded)
  {
    if r < s.made && home[r].AtActive? {
      assert InHand(s.tasks, s.held, r, home[r]);
      forall t | t in s.tasks && s.tasks[t].Validating? && s.tasks[t].res == r
        ensures home[r] == AtActive(Checking(t)) {
        assert Grips(t, s.tasks[t], home);
      }
    }
  }

  /** A resource is out without a holder and without being validated if and only if `validate` threw on it
      inside `acquire`: that is the one way the pool loses a slot for good. */
  lemma OnlyAThrowStrands(o: PoolOptions.PoolOption, es: seq<Event>, r: Res)
    requires PoolOptions.Validate(o) && CanRun(Init(ConfigOf(o)), es)
    ensures var s := Run(Init(ConfigOf(o)), es);
      (r in s.active && !Attended(s, r)) <==> r < s.made && r in ThrownOn(Init(ConfigOf(o)), es)
  {
    hide Buckets, Hands, Orderly;
    FreshPool(ConfigOf(o));
    var home := StrandedByRun(Init(ConfigOf(o)), [], es);
    UnattendedIsStranded(Run(Init(ConfigOf(o)), es), home, r);
  }

  lemma RunStep(s: State, e: Event, s': State, es: seq<Event>)
    requires Enabled(s, e) && Step(s, e) == s' && CanRun(s', es)
    ensures CanRun(s, [e] + es) && Run(s, [e] + es) == Run(s', es)
    ensures ThrownOn(s, [e] + es) == ThrownOn(s', es) + if e.EValidated? && e.check == Threw then {s.tasks[e.call].res} else {}
  {
    hide Step, Enabled;
    assert ([e] + es)[1..] == es;
  }

  /** It does happen: the only slot of a warmed pool is lost to one acquire. */
  lemma ThrowStrandsASlot()
    ensures var start, es := Init(Config(1, 1, false)),
                [EEnsureMin] + ([ECreated(0, true)] + ([EAcquire(false)] + ([EValidated(1, Threw)] + [])));
      && CanRun(start, es) && ThrownOn(start, es) == {0}
      && 0 in Run(start, es).active && !Attended(Run(start, es), 0) && Size(Run(start, es)) == 1
  {
    var start := Init(Config(1, 1, false));
    var s1 := start.(pending := 1, tasks := map[0 := Creating(ForWarmth)], nextId := 1);
    var s2 := start.(idle := [0], nextId := 1, made := 1);
    var s3 := start.(active := {0}, tasks := map[1 := Validating(0, false)], nextId := 2, made := 1);
    var s4 := start.(active := {0}, nextId := 2, made := 1, results := map[1 := ValidateThrew]);
    WarmedUp(start, s1, s2);
    AcquireThrew(start, s2, s3, s4);
    hide Step, Enabled;
    RunStep(s3, EValidated(1, Threw), s4, []);
    RunStep(s2, EAcquire(false), s3, [EValidated(1, Threw)] + []);
    RunStep(s1, ECreated(0, true), s2, [EAcquire(false)] + ([EValidated(1, Threw)] + []));
    RunStep(start, EEnsureMin, s1, [ECreated(0, true)] + ([EAcquire(false)] + ([EValidated(1, Threw)] + [])));
  }

  lemma WarmedUp(start: State, s1: State, s2: State)
    requires start == Init(Config(1, 1, false))
    requires s1 == start.(pending := 1, tasks := map[0 := Creating(ForWarmth)], nextId := 1)
    requires s2 == start.(idle := [0], nextId := 1, made := 1)
    ensures Step(start, EEnsureMin) == s1
    ensures Enabled(s1, ECreated(0, true)) && Step(s1, ECreated(0, true)) == s2
  {
    assert EnsureMin(start) == StartFactories(start, 1, ForWarmth);
    assert s1.tasks - {0} == map[];
  }

  lemma AcquireThrew(start: State, s2: State, s3: State, s4: State)
    requires start == Init(Config(1, 1, false))
    requires s2 == start.(idle := [0], nextId := 1, made := 1)
    requires s3 == start.(active := {0}, tasks := map[1 := Validating(0, false)], nextId := 2, made := 1)
    requires s4 == start.(active := {0}, nextId := 2, made := 1, results := map[1 := ValidateThrew])
    ensures Enabled(s2, EAcquire(false)) && Step(s2, EAcquire(false)) == s3
    ensures Enabled(s3, EValidated(1, Threw)) && Step(s3, EValidated(1, Threw)) == s4
    ensures CanRun(s4, []) && Run(s4, []) == s4 && ThrownOn(s4, []) == {} && !Attended(s4, 0)
  {
    var one: seq<Res> := [0];
    assert one[1..] == [] && s2.idleTimers - {0} == {};
    assert s3.tasks - {1} == map[];
  }

  // ----- waiters -----

  /** A waiter is in the queue exactly while it is unsettled, once and in its turn; the skipping of settled
      waiters therefore never skips anything. */
  lemma QueueIsTheUnsettled(s: State, ticket: nat)
    requires Reached(s) && ticket < |s.arrivals|
    ensures Waiter(ticket, s.arrivals[ticket]) in s.waiters <==> ticket !in s.settled
    ensures ticket in s.settled <==> s.arrivals[ticket] in s.results
    ensures Ascending(s.waiters)
    ensures DropSettled(s.waiters, s.settled) == s.waiters
  {
    var home := ReachedIsGood(s);
    assert Queued(ticket, s.arrivals[ticket], s.tasks, s.results, s.settled, s.nextId);
    NoneSettled(s);
  }

  /** Waiters that leave other than by timeout leave in the order they came: nobody is served, refused or
      failed while someone who came before is still queued. */
  lemma ServedInOrder(s: State, first: nat, second: nat)
    requires Reached(s) && first < second < |s.arrivals|
    requires s.arrivals[second] in s.results && s.results[s.arrivals[second]] != TimedOut
    ensures s.arrivals[first] in s.results
  {
    var home := ReachedIsGood(s);
    assert Queued(first, s.arrivals[first], s.tasks, s.results, s.settled, s.nextId);
    assert Queued(second, s.arrivals[second], s.tasks, s.results, s.settled, s.nextId);
  }

  ghost predicate OutcomesStay(s: State, s': State) {
    forall call :: call in s.results ==> call in s'.results && s'.results[call] == s.results[call]
  }

  lemma {:induction false} RejectAllOutcomes(s: State)
    requires Orderly(s)
    ensures OutcomesStay(s, RejectAll(s))
    decreases |s.waiters|
  {
    hide Queue, Calls, InOrder;
    NoneSettled(s);
    if s.waiters != [] {
      HeadFacts(s);
      Serve(s, PoolDraining);
      RejectAllOutcomes(SettleHead(s).(results := s.results[s.waiters[0].call := PoolDraining]));
    }
  }

  lemma {:induction false} FactoriesOutcomes(s: State, n: nat, purpose: Purpose)
    ensures StartFactories(s, n, purpose).results == s.results
    decreases n
  {
    if n != 0 {
      FactoriesOutcomes(Spawn(s.(pending := s.pending + 1), Creating(purpose)), n - 1, purpose);
    }
  }

  lemma WarmUpOutcomes(s: State)
    ensures EnsureMin(s).results == s.results
  {
    forall n: nat, purpose { FactoriesOutcomes(s, n, purpose); }
  }

  lemma {:induction false} PumpOutcomes(s: State, home: seq<Home>, live: nat, throws: seq<bool>)
    requires Inv(s, home)
    ensures OutcomesStay(s, PumpOn(s, live, throws))
    decreases live
  {
    hide Buckets, Hands, Queue, Calls, InOrder, FailOne;
    if live > 0 && Size(s) < s.cfg.max {
      var rest := if throws == [] then [] else throws[1..];
      DeliverOutcomes(s, 0);
      FailOneKeeps(s, home);
      StartFactoriesKeeps(s, home, 1, ForWaiter);
      var started := Spawn(s.(pending := s.pending + 1), Creating(ForWaiter));
      assert StartFactories(started, 0, ForWaiter) == started;
      PumpOutcomes(if throws != [] && throws[0] then FailOne(s) else started, home, live - 1, rest);
    }
  }

  lemma UnsettledIsOpen(s: State, w: Waiter)
    requires Orderly(s) && w.ticket < |s.arrivals| && s.arrivals[w.ticket] == w.call && w.ticket !in s.settled
    ensures w.call !in s.results
  {
    assert Queued(w.ticket, w.call, s.tasks, s.results, s.settled, s.nextId);
  }

  lemma DeliverOutcomes(s: State, r: Res)
    requires Orderly(s)
    ensures OutcomesStay(s, Deliver(s, r)) && OutcomesStay(s, FailOne(s))
  {
    hide Queue, Calls, InOrder;
    NoneSettled(s);
    if s.waiters != [] {
      Serve(s, CreateFailed);
    }
  }

  lemma CreatedOutcomes(s: State, t: Id, ok: bool)
    requires Orderly(s) && t in s.tasks && s.tasks[t].Creating?
    ensures OutcomesStay(s, Created(s, t, ok))
  {
    hide Queue, Calls, InOrder, Deliver, FailOne;
    Suspended(s, t);
    CallsFinish(s, t);
    var s1 := Finish(s, t).(pending := s.pending - 1);
    DeliverOutcomes(if ok then s1.(made := s.made + 1) else s1, s.made);
  }

  lemma HandedOutcomes(s: State, t: Id, valid: bool)
    requires Orderly(s) && t in s.tasks && s.tasks[t].Handing?
    ensures OutcomesStay(s, Handed(s, t, valid))
  {
    hide Queue, Calls, InOrder, Deliver, FailOne;
    CallsFinish(s, t);
    DeliverOutcomes(Finish(s.(handoff := s.handoff - {s.tasks[t].res}), t), s.tasks[t].res);
  }

  lemma PumpedOutcomes(s: State, home: seq<Home>, t: Id, throws: seq<bool>)
    requires Inv(s, home) && t in s.tasks && s.tasks[t].Pumping?
    ensures OutcomesStay(s, Pumped(s, t, throws))
  {
    hide Buckets, Hands, Queue, Calls, InOrder, PumpOn;
    CallsFinish(s, t);
    FactoryFinish(s.tasks, t);
    HandsPlain(s.tasks, s.held, home, t, Pumping);
    PumpOutcomes(Finish(s, t), home, CountLive(s.waiters, s.settled), throws);
  }

  lemma LookOutcomes(s: State, call: Id, timed: bool)
    ensures Look(s, call, timed).results == s.results
  {
  }

  lemma DiscardedOutcomes(s: State, call: Id)
    requires call in s.tasks && s.tasks[call].Discarding?
    ensures Discarded(s, call).results == s.results
  {
    hide Look;
    LookOutcomes(Finish(s, call), call, s.tasks[call].timed);
  }

  lemma AcquireOutcomes(s: State, timed: bool)
    requires Orderly(s)
    ensures OutcomesStay(s, Acquire(s, timed))
  {
    hide Queue, Calls, InOrder, Look;
    CallsFresh(s);
    LookOutcomes(s.(nextId := s.nextId + 1), s.nextId, timed);
  }

  lemma ValidatedOutcomes(s: State, home: seq<Home>, call: Id, check: Check)
    requires Inv(s, home) && call in s.tasks && s.tasks[call].Validating?
    ensures OutcomesStay(s, Validated(s, call, check))
  {
    hide Queue, Calls, Buckets, Hands, InOrder;
    Suspended(s, call);
  }

  lemma LetGoOutcomes(s: State, call: Id)
    requires call in s.held
    ensures Release(s, call).results == Destroy(s, call).results == s.results
  {
    hide CountLive, RemoveFirst;
  }

  /** An `acquire` ends once: no later stretch changes its outcome. */
  lemma OutcomeIsFinal(s: State, e: Event)
    requires Reached(s) && Enabled(s, e)
    ensures OutcomesStay(s, Step(s, e))
  {
    hide Queue, Calls, Buckets, Hands, InOrder, Reached, Acquire, Validated, Discarded, Created, Handed, Release, Destroy, Pumped;
    var home := ReachedIsGood(s);
    match e
    case EAcquire(timed) => AcquireOutcomes(s, timed);
    case EValidated(call, check) => ValidatedOutcomes(s, home, call, check);
    case EDiscarded(call) => DiscardedOutcomes(s, call);
    case ERelease(call) => LetGoOutcomes(s, call);
    case EDestroy(call) => LetGoOutcomes(s, call);
    case ECreated(t, ok) => CreatedOutcomes(s, t, ok);
    case EHanded(t, valid) => HandedOutcomes(s, t, valid);
    case EDrain => RejectAllOutcomes(s.(draining := true));
    case EAcquireTimeout(w) =>
      if w.ticket !in s.settled { UnsettledIsOpen(s, w); }
    case EPumped(t, throws) => PumpedOutcomes(s, home, t, throws);
    case EEnsureMin => WarmUpOutcomes(s);
    case EIdleTimeout(r) => WarmUpOutcomes(s.(idleTimers := s.idleTimers - {r}));
    case _ =>
  }

  // ----- draining -----

  /** While the pool drains nothing is kept, whatever was begun before. */
  lemma DrainingKeepsNothing(s: State)
    requires Reached(s) && s.draining
    ensures s.idle == []
  {
    var home := ReachedIsGood(s);
  }
}
