/** What every interleaving of the pool keeps.

    The proof follows one resource at a time: a stretch takes it out of where it was (`Lifted`, in transit)
    and puts it somewhere else. */
module PoolInvariants {
  import opened PoolModel

  // ----- where each resource is -----

  datatype Claim = Held(call: Id) | Checking(t: Id) | Stranded
  datatype Home = AtIdle | AtActive(claim: Claim) | AtHandoff(t: Id) | AtDrain(t: Id) | Destroyed | InTransit

  predicate NoDup<T(==)>(xs: seq<T>) {
    forall i, j :: 0 <= i < j < |xs| ==> xs[i] != xs[j]
  }

  /** A created resource is in the bucket its home names, and in no other. */
  ghost predicate Buckets(idle: seq<Res>, active: set<Res>, handoff: set<Res>, destroyed: seq<Res>,
                          timers: set<Res>, home: seq<Home>) {
    && NoDup(idle) && NoDup(destroyed)
    && (forall r: Res :: r in idle <==> r < |home| && home[r] == AtIdle)
    && (forall r: Res :: r in active <==> r < |home| && home[r].AtActive?)
    && (forall r: Res :: r in handoff <==> r < |home| && home[r].AtHandoff?)
    && (forall r: Res :: r in destroyed <==> r < |home| && home[r] == Destroyed)
    && (forall r: Res :: r in timers ==> r < |home| && (home[r] == AtIdle || home[r].AtDrain?))
  }

  /** A suspended call has the resources it works on to itself, and a holder what it holds. */
  ghost predicate Hands(tasks: map<Id, Task>, held: map<Id, Res>, home: seq<Home>) {
    && (forall call :: call in held ==> held[call] < |home| && home[held[call]] == AtActive(Held(call)))
    && (forall t :: t in tasks ==> Grips(t, tasks[t], home))
    && (forall r: Res :: r < |home| ==> InHand(tasks, held, r, home[r]))
  }

  ghost predicate Grips(t: Id, task: Task, home: seq<Home>) {
    match task
    case Validating(r, _) => r < |home| && home[r] == AtActive(Checking(t))
    case Handing(r) => r < |home| && home[r] == AtHandoff(t)
    case Draining(rest) => NoDup(rest) && forall r :: r in rest ==> r < |home| && home[r] == AtDrain(t)
    case _ => true
  }

  ghost predicate InHand(tasks: map<Id, Task>, held: map<Id, Res>, r: Res, h: Home) {
    match h
    case AtActive(Held(call)) => call in held && held[call] == r
    case AtActive(Checking(t)) => t in tasks && tasks[t].Validating? && tasks[t].res == r
    case AtHandoff(t) => t in tasks && tasks[t].Handing? && tasks[t].res == r
    case AtDrain(t) => t in tasks && tasks[t].Draining? && r in tasks[t].rest
    case _ => true
  }

  /** In nobody's hands. */
  predicate Loose(h: Home) {
    h == AtIdle || h == AtActive(Stranded) || h == Destroyed || h == InTransit
  }

  ghost predicate Homed(s: State, home: seq<Home>) {
    && |home| == s.made
    && Buckets(s.idle, s.active, s.handoff, s.destroyed, s.idleTimers, home)
    && Hands(s.tasks, s.held, home)
  }

  // ----- calls and waiters -----

  predicate OfAcquire(task: Task) {
    task.Validating? || task.Discarding? || task == Creating(ForCaller)
  }

  predicate Ascending(ws: seq<Waiter>) {
    forall i, j :: 0 <= i < j < |ws| ==> ws[i].ticket < ws[j].ticket
  }

  /** The queue holds exactly the unsettled tickets, in the order they were drawn. */
  ghost predicate Queue(waiters: seq<Waiter>, settled: set<nat>, armed: set<nat>, arrivals: seq<Id>) {
    && Ascending(waiters)
    && (forall w :: w in waiters ==>
          w.ticket < |arrivals| && arrivals[w.ticket] == w.call && w.ticket !in settled)
    && (forall k :: 0 <= k < |arrivals| && k !in settled ==> Waiter(k, arrivals[k]) in waiters)
    && (forall k :: k in settled ==> k < |arrivals|)
    && (forall k :: k in armed ==> k < |arrivals| && k !in settled)
  }

  /** An `acquire` is suspended, queued or over, and only one of these. */
  ghost predicate Calls(tasks: map<Id, Task>, results: map<Id, Outcome>, held: map<Id, Res>,
                        arrivals: seq<Id>, settled: set<nat>, nextId: Id) {
    && NoDup(arrivals)
    && (forall t :: t in tasks ==> t < nextId && (OfAcquire(tasks[t]) ==> t !in results))
    && (forall call :: call in results ==> call < nextId)
    && (forall call :: call in held ==> call in results && results[call] == Got(held[call]))
    && (forall k :: 0 <= k < |arrivals| ==> Queued(k, arrivals[k], tasks, results, settled, nextId))
  }

  ghost predicate Queued(k: nat, call: Id, tasks: map<Id, Task>, results: map<Id, Outcome>, settled: set<nat>,
                         nextId: Id) {
    call < nextId && call !in tasks && (call in results <==> k in settled)
  }

  /** No overtaking: once a waiter has left other than by timeout, everyone who came before has left. */
  ghost predicate InOrder(arrivals: seq<Id>, settled: set<nat>, results: map<Id, Outcome>) {
    forall i, j | 0 <= i < j < |arrivals| && j in settled && i !in settled ::
      arrivals[j] in results ==> results[arrivals[j]] == TimedOut
  }

  ghost predicate Orderly(s: State) {
    && Queue(s.waiters, s.settled, s.armed, s.arrivals)
    && Calls(s.tasks, s.results, s.held, s.arrivals, s.settled, s.nextId)
    && InOrder(s.arrivals, s.settled, s.results)
  }

  /** A call number in use by no suspended call, no queued acquirer and no outcome. */
  ghost predicate Free(s: State, call: Id) {
    call < s.nextId && call !in s.tasks && call !in s.results && call !in s.arrivals
  }

  // ----- numbers -----

  function InFactory(tasks: map<Id, Task>): set<Id> {
    set t | t in tasks && tasks[t].Creating?
  }

  /** The pool has `spare` slots left under its ceiling. */
  ghost predicate Bounded(s: State, spare: nat) {
    && s.cfg.min <= s.cfg.max && 1 <= s.cfg.max
    && s.pending == |InFactory(s.tasks)|
    && Size(s) + spare <= s.cfg.max
    && (s.draining ==> s.idle == [])
  }

  /** Nothing was stranded meanwhile, and nothing stranded was recovered. */
  ghost predicate SameStranded(home: seq<Home>, home': seq<Home>) {
    && |home| <= |home'|
    && (forall q: Res :: q < |home'| ==> (home'[q] == AtActive(Stranded) <==> q < |home| && home[q] == AtActive(Stranded)))
  }

  ghost predicate Inv(s: State, home: seq<Home>) {
    && Homed(s, home) && Orderly(s) && Bounded(s, 0)
    && (forall r: Res :: r < |home| ==> home[r] != InTransit)
  }

  /** The invariant while `r` alone is in transit. */
  ghost predicate Lifted(s: State, home: seq<Home>, r: Res) {
    && Homed(s, home) && Orderly(s) && Bounded(s, 1)
    && r < |home| && (forall q: Res :: q < |home| ==> (home[q] == InTransit <==> q == r))
  }

  // ----- sets and sequences -----

  lemma {:induction false} RemoveFirstMembers(rs: seq<Res>, r: Res)
    requires NoDup(rs)
    ensures NoDup(RemoveFirst(rs, r))
    ensures forall q :: q in RemoveFirst(rs, r) <==> q in rs && q != r
    ensures |RemoveFirst(rs, r)| == |rs| - if r in rs then 1 else 0
  {
    if rs != [] {
      assert forall q :: q in rs <==> q == rs[0] || q in rs[1..];
      if rs[0] != r {
        RemoveFirstMembers(rs[1..], r);
        var rest := RemoveFirst(rs[1..], r);
        assert forall i :: 0 <= i < |rest| ==> rest[i] in rest;
      }
    }
  }

  lemma AppendMembers<T>(xs: seq<T>, x: T)
    requires NoDup(xs) && x !in xs
    ensures NoDup(xs + [x])
    ensures forall q :: q in xs + [x] <==> q in xs || q == x
  {
    assert forall i :: 0 <= i < |xs| ==> (xs + [x])[i] in xs;
  }

  lemma FactoryUpdate(tasks: map<Id, Task>, t: Id, task: Task)
    requires t in tasks ==> !tasks[t].Creating?
    ensures |InFactory(tasks[t := task])| == |InFactory(tasks)| + if task.Creating? then 1 else 0
  {
    assert t !in InFactory(tasks);
    assert InFactory(tasks[t := task]) == if task.Creating? then InFactory(tasks) + {t} else InFactory(tasks);
  }

  lemma FactoryFinish(tasks: map<Id, Task>, t: Id)
    requires t in tasks
    ensures |InFactory(tasks - {t})| == |InFactory(tasks)| - if tasks[t].Creating? then 1 else 0
  {
    assert InFactory(tasks - {t}) == InFactory(tasks) - {t};
  }

  // ----- buckets: taking one resource out, putting it in -----

  lemma PutIdle(s: State, home: seq<Home>, r: Res)
    requires Lifted(s, home, r)
    ensures Buckets(s.idle + [r], s.active, s.handoff, s.destroyed, s.idleTimers, home[r := AtIdle])
    ensures Buckets(s.idle + [r], s.active, s.handoff, s.destroyed, s.idleTimers + {r}, home[r := AtIdle])
  {
    AppendMembers(s.idle, r);
  }

  lemma PutActive(s: State, home: seq<Home>, r: Res, c: Claim)
    requires Lifted(s, home, r)
    ensures Buckets(s.idle, s.active + {r}, s.handoff, s.destroyed, s.idleTimers, home[r := AtActive(c)])
    ensures r !in s.active
  {
  }

  lemma PutHandoff(s: State, home: seq<Home>, r: Res, t: Id)
    requires Lifted(s, home, r)
    ensures Buckets(s.idle, s.active, s.handoff + {r}, s.destroyed, s.idleTimers, home[r := AtHandoff(t)])
    ensures r !in s.handoff
  {
  }

  lemma PutDestroyed(s: State, home: seq<Home>, r: Res)
    requires Lifted(s, home, r)
    ensures Buckets(s.idle, s.active, s.handoff, s.destroyed + [r], s.idleTimers, home[r := Destroyed])
  {
    AppendMembers(s.destroyed, r);
  }

  lemma TakeActive(s: State, home: seq<Home>, r: Res)
    requires Homed(s, home) && r < |home| && home[r].AtActive?
    ensures Buckets(s.idle, s.active - {r}, s.handoff, s.destroyed, s.idleTimers, home[r := InTransit])
    ensures r in s.active && r !in s.idle && r !in s.handoff && r !in s.idleTimers
  {
  }

  lemma TakeHandoff(s: State, home: seq<Home>, r: Res)
    requires Homed(s, home) && r < |home| && home[r].AtHandoff?
    ensures Buckets(s.idle, s.active, s.handoff - {r}, s.destroyed, s.idleTimers, home[r := InTransit])
    ensures r in s.handoff && r !in s.idle && r !in s.active && r !in s.idleTimers
  {
  }

  lemma TakeIdle(s: State, home: seq<Home>, r: Res)
    requires Homed(s, home) && r in s.idle
    ensures r < |home| && home[r] == AtIdle
    ensures Buckets(RemoveFirst(s.idle, r), s.active, s.handoff, s.destroyed, s.idleTimers - {r}, home[r := InTransit])
    ensures |RemoveFirst(s.idle, r)| == |s.idle| - 1
  {
    RemoveFirstMembers(s.idle, r);
  }

  lemma TakeNew(s: State, home: seq<Home>)
    requires Homed(s, home)
    ensures Buckets(s.idle, s.active, s.handoff, s.destroyed, s.idleTimers, home + [InTransit])
    ensures Hands(s.tasks, s.held, home + [InTransit])
  {
    assert forall t :: t in s.tasks && Grips(t, s.tasks[t], home) ==> Grips(t, s.tasks[t], home + [InTransit]);
  }

  lemma DropTimer(s: State, home: seq<Home>, r: Res)
    requires Homed(s, home)
    ensures Buckets(s.idle, s.active, s.handoff, s.destroyed, s.idleTimers - {r}, home)
  {
  }

  // ----- hands -----

  lemma HandsLoose(tasks: map<Id, Task>, held: map<Id, Res>, home: seq<Home>, r: Res, h: Home)
    requires Hands(tasks, held, home) && r < |home| && Loose(home[r]) && Loose(h)
    ensures Hands(tasks, held, home[r := h])
  {
  }

  lemma HandsGrip(tasks: map<Id, Task>, held: map<Id, Res>, home: seq<Home>, r: Res, t: Id, timed: bool)
    requires Hands(tasks, held, home) && r < |home| && Loose(home[r]) && t !in tasks
    ensures Hands(tasks[t := Validating(r, timed)], held, home[r := AtActive(Checking(t))])
    ensures Hands(tasks[t := Handing(r)], held, home[r := AtHandoff(t)])
  {
  }

  lemma HandsHold(tasks: map<Id, Task>, held: map<Id, Res>, home: seq<Home>, r: Res, call: Id)
    requires Hands(tasks, held, home) && r < |home| && Loose(home[r]) && call !in held
    ensures Hands(tasks, held[call := r], home[r := AtActive(Held(call))])
  {
  }

  lemma HandsDrop(tasks: map<Id, Task>, held: map<Id, Res>, home: seq<Home>, call: Id)
    requires Hands(tasks, held, home) && call in held
    ensures held[call] < |home| && home[held[call]] == AtActive(Held(call))
    ensures Hands(tasks, held - {call}, home[held[call] := InTransit])
  {
  }

  /** A call lets go of the resource it was working on. */
  lemma HandsFinish(tasks: map<Id, Task>, held: map<Id, Res>, home: seq<Home>, t: Id, h: Home)
    requires Hands(tasks, held, home) && t in tasks && (tasks[t].Validating? || tasks[t].Handing?) && Loose(h)
    ensures tasks[t].res < |home| && home[tasks[t].res] == if tasks[t].Handing? then AtHandoff(t) else AtActive(Checking(t))
    ensures Hands(tasks - {t}, held, home[tasks[t].res := h])
  {
    var home' := home[tasks[t].res := h];
    assert Grips(t, tasks[t], home);
    assert forall u :: u in tasks - {t} ==> Grips(u, tasks[u], home);
    assert forall u :: u in tasks - {t} ==> Grips(u, tasks[u], home');
  }

  predicate EmptyHanded(task: Task) {
    task.Creating? || task.Discarding? || task.Pumping? || task == Draining([])
  }

  lemma HandsPlain(tasks: map<Id, Task>, held: map<Id, Res>, home: seq<Home>, t: Id, task: Task)
    requires Hands(tasks, held, home) && (t in tasks ==> EmptyHanded(tasks[t])) && EmptyHanded(task)
    ensures Hands(tasks[t := task], held, home)
    ensures Hands(tasks - {t}, held, home)
  {
  }

  // ----- the queue and the outcomes -----

  lemma NoneSettled(s: State)
    requires Orderly(s)
    ensures DropSettled(s.waiters, s.settled) == s.waiters
    ensures CountLive(s.waiters, s.settled) == |s.waiters|
  {
    AllLive(s.waiters, s.settled);
  }

  lemma AllLive(ws: seq<Waiter>, settled: set<nat>)
    requires forall w :: w in ws ==> w.ticket !in settled
    ensures DropSettled(ws, settled) == ws
    ensures CountLive(ws, settled) == |ws|
  {
  }

  /** A suspended or starting `acquire` that never queued gets its outcome. */
  lemma Conclude(s: State, call: Id, o: Outcome)
    requires Orderly(s) && Free(s, call)
    ensures Orderly(s.(results := s.results[call := o]))
    ensures o.Got? ==> Orderly(s.(results := s.results[call := o], held := s.held[call := o.res]))
    ensures call !in s.held
  {
    assert forall k :: 0 <= k < |s.arrivals| ==> s.arrivals[k] in s.arrivals;
  }

  lemma HeadFacts(s: State)
    requires Orderly(s) && s.waiters != []
    ensures var w := s.waiters[0]; w.ticket < |s.arrivals| && s.arrivals[w.ticket] == w.call && w.ticket !in s.settled
    ensures forall k :: 0 <= k < |s.arrivals| && k !in s.settled ==> s.waiters[0].ticket <= k
    ensures forall w :: w in s.waiters[1..] ==> w in s.waiters && w.ticket > s.waiters[0].ticket
    ensures forall w :: w in s.waiters && w != s.waiters[0] ==> w in s.waiters[1..]
  {
    assert s.waiters[0] in s.waiters;
    assert forall w :: w in s.waiters[1..] ==> exists i :: 0 < i < |s.waiters| && s.waiters[i] == w;
    assert s.waiters == [s.waiters[0]] + s.waiters[1..];
  }

  lemma QueueHead(s: State)
    requires Orderly(s) && s.waiters != []
    ensures var s' := SettleHead(s); Queue(s'.waiters, s'.settled, s'.armed, s'.arrivals)
  {
    HeadFacts(s);
  }

  /** The head of the queue gets its outcome. */
  lemma Serve(s: State, o: Outcome)
    requires Orderly(s) && s.waiters != []
    ensures var call := s.waiters[0].call; call !in s.held && call !in s.tasks && call !in s.results
    ensures Orderly(SettleHead(s).(results := s.results[s.waiters[0].call := o]))
    ensures o.Got? ==> Orderly(SettleHead(s).(results := s.results[s.waiters[0].call := o],
                                              held := s.held[s.waiters[0].call := o.res]))
  {
    hide Queue;
    HeadFacts(s);
    QueueHead(s);
    var w := s.waiters[0];
    assert Queued(w.ticket, w.call, s.tasks, s.results, s.settled, s.nextId);
  }

  lemma AscendingCons(w: Waiter, ws: seq<Waiter>)
    requires Ascending(ws) && forall v :: v in ws ==> w.ticket < v.ticket
    ensures Ascending([w] + ws)
  {
  }

  lemma {:induction false} RemoveWaiterMembers(ws: seq<Waiter>, w: Waiter)
    requires Ascending(ws)
    ensures forall v :: v in RemoveWaiter(ws, w) <==> v in ws && v != w
    ensures Ascending(RemoveWaiter(ws, w))
  {
    if ws != [] {
      assert forall v :: v in ws <==> v == ws[0] || v in ws[1..];
      assert forall v :: v in ws[1..] ==> ws[0].ticket < v.ticket;
      if ws[0] != w {
        RemoveWaiterMembers(ws[1..], w);
        AscendingCons(ws[0], RemoveWaiter(ws[1..], w));
      }
    }
  }

  lemma QueueTimeout(s: State, w: Waiter)
    requires Orderly(s) && w.ticket < |s.arrivals| && s.arrivals[w.ticket] == w.call && w.ticket !in s.settled
    ensures Queue(RemoveWaiter(s.waiters, w), s.settled + {w.ticket}, s.armed - {w.ticket}, s.arrivals)
  {
    hide RemoveWaiter, Calls, InOrder;
    RemoveWaiterMembers(s.waiters, w);
  }

  lemma CallsTimeout(s: State, w: Waiter)
    requires Orderly(s) && w.ticket < |s.arrivals| && s.arrivals[w.ticket] == w.call && w.ticket !in s.settled
    ensures Calls(s.tasks, s.results[w.call := TimedOut], s.held, s.arrivals, s.settled + {w.ticket}, s.nextId)
    ensures InOrder(s.arrivals, s.settled + {w.ticket}, s.results[w.call := TimedOut])
  {
    hide Queue;
    assert Queued(w.ticket, w.call, s.tasks, s.results, s.settled, s.nextId);
  }

  lemma CallsStart(s: State, t: Id, task: Task)
    requires Orderly(s) && t < s.nextId && t !in s.arrivals && (OfAcquire(task) ==> t !in s.results)
    ensures Calls(s.tasks[t := task], s.results, s.held, s.arrivals, s.settled, s.nextId)
  {
    assert forall k :: 0 <= k < |s.arrivals| ==> s.arrivals[k] in s.arrivals;
  }

  lemma CallsFinish(s: State, t: Id)
    requires Orderly(s)
    ensures Calls(s.tasks - {t}, s.results, s.held, s.arrivals, s.settled, s.nextId)
  {
    forall k | 0 <= k < |s.arrivals|
      ensures Queued(k, s.arrivals[k], s.tasks - {t}, s.results, s.settled, s.nextId) {
      assert Queued(k, s.arrivals[k], s.tasks, s.results, s.settled, s.nextId);
    }
  }

  lemma CallsFresh(s: State)
    requires Orderly(s)
    ensures Calls(s.tasks, s.results, s.held, s.arrivals, s.settled, s.nextId + 1)
    ensures s.nextId !in s.tasks && s.nextId !in s.results && s.nextId !in s.arrivals
  {
    forall k | 0 <= k < |s.arrivals|
      ensures s.arrivals[k] != s.nextId
      ensures Queued(k, s.arrivals[k], s.tasks, s.results, s.settled, s.nextId + 1) {
      assert Queued(k, s.arrivals[k], s.tasks, s.results, s.settled, s.nextId);
    }
  }

  lemma CallsRelease(s: State, call: Id)
    requires Orderly(s)
    ensures Calls(s.tasks, s.results, s.held - {call}, s.arrivals, s.settled, s.nextId)
  {
  }

  lemma Suspended(s: State, t: Id)
    requires Orderly(s) && t in s.tasks
    ensures t < s.nextId && t !in s.arrivals && (OfAcquire(s.tasks[t]) ==> t !in s.results)
  {
    forall k | 0 <= k < |s.arrivals| ensures s.arrivals[k] != t {
      assert Queued(k, s.arrivals[k], s.tasks, s.results, s.settled, s.nextId);
    }
  }

  lemma Enqueue(s: State, call: Id, timed: bool)
    requires Orderly(s) && Free(s, call)
    ensures Queue(s.waiters + [Waiter(|s.arrivals|, call)], s.settled,
                  if timed then s.armed + {|s.arrivals|} else s.armed, s.arrivals + [call])
    ensures Calls(s.tasks, s.results, s.held, s.arrivals + [call], s.settled, s.nextId)
    ensures InOrder(s.arrivals + [call], s.settled, s.results)
  {
    AppendMembers(s.arrivals, call);
    var ws := s.waiters + [Waiter(|s.arrivals|, call)];
    assert forall w :: w in ws <==> w in s.waiters || w == Waiter(|s.arrivals|, call);
    assert forall i :: 0 <= i < |s.waiters| ==> s.waiters[i] in s.waiters;
  }

  // ----- a resource in transit comes to rest -----

  lemma DoomKeeps(s: State, home: seq<Home>, r: Res)
    requires Lifted(s, home, r)
    ensures Inv(Doom(s, r), home[r := Destroyed])
  {
    hide Buckets, Hands, Queue, Calls, InOrder;
    PutDestroyed(s, home, r);
    HandsLoose(s.tasks, s.held, home, r, Destroyed);
  }

  lemma ParkKeeps(s: State, home: seq<Home>, r: Res)
    requires Lifted(s, home, r) && !s.draining
    ensures Inv(Park(s, r), home[r := AtIdle])
  {
    hide Buckets, Hands, Queue, Calls, InOrder;
    PutIdle(s, home, r);
    HandsLoose(s.tasks, s.held, home, r, AtIdle);
  }

  lemma GiveKeeps(s: State, home: seq<Home>, r: Res, call: Id)
    requires Lifted(s, home, r) && Free(s, call)
    ensures Inv(Give(s, call, r), home[r := AtActive(Held(call))])
  {
    hide Buckets, Hands, Queue, Calls, InOrder;
    PutActive(s, home, r, Held(call));
    Conclude(s, call, Got(r));
    HandsHold(s.tasks, s.held, home, r, call);
  }

  lemma DeliverKeeps(s: State, home: seq<Home>, r: Res) returns (home': seq<Home>)
    requires Lifted(s, home, r) && !s.draining
    ensures Inv(Deliver(s, r), home')
    ensures |home'| == |home| && home'[r] != AtActive(Stranded)
    ensures forall q: Res :: q < |home| && q != r ==> home'[q] == home[q]
  {
    hide Buckets, Hands, Queue, Calls, InOrder;
    NoneSettled(s);
    if s.waiters == [] {
      home' := home[r := AtIdle];
      ParkKeeps(s, home, r);
    } else {
      var call := s.waiters[0].call;
      home' := home[r := AtActive(Held(call))];
      Serve(s, Got(r));
      PutActive(s, home, r, Held(call));
      HandsHold(s.tasks, s.held, home, r, call);
    }
  }

  // ----- each stretch keeps the invariant -----

  lemma LookKeeps(s: State, home: seq<Home>, call: Id, timed: bool) returns (home': seq<Home>)
    requires Inv(s, home) && Free(s, call)
    ensures Inv(Look(s, call, timed), home')
    ensures SameStranded(home, home')
  {
    hide Buckets, Hands, Queue, Calls, InOrder;
    home' := home;
    if s.idle != [] {
      var r := s.idle[0];
      TakeIdle(s, home, r);
      HandsLoose(s.tasks, s.held, home, r, InTransit);
      var lifted := s.(idle := s.idle[1..], idleTimers := s.idleTimers - {r});
      home' := home[r := AtActive(Checking(call))];
      assert home[r := InTransit][r := AtActive(Checking(call))] == home';
      PutActive(lifted, home[r := InTransit], r, Checking(call));
      HandsGrip(s.tasks, s.held, home[r := InTransit], r, call, timed);
      FactoryUpdate(s.tasks, call, Validating(r, timed));
      CallsStart(s, call, Validating(r, timed));
    } else if Size(s) < s.cfg.max {
      FactoryUpdate(s.tasks, call, Creating(ForCaller));
      CallsStart(s, call, Creating(ForCaller));
      HandsPlain(s.tasks, s.held, home, call, Creating(ForCaller));
    } else {
      Enqueue(s, call, timed);
    }
  }

  lemma AcquireKeeps(s: State, home: seq<Home>, timed: bool) returns (home': seq<Home>)
    requires Inv(s, home)
    ensures Inv(Acquire(s, timed), home')
    ensures SameStranded(home, home')
  {
    hide Buckets, Hands, Queue, Calls, InOrder;
    CallsFresh(s);
    var s' := s.(nextId := s.nextId + 1);
    assert Inv(s', home);
    if s.draining {
      home' := home;
      Conclude(s', s.nextId, PoolDraining);
    } else {
      home' := LookKeeps(s', home, s.nextId, timed);
    }
  }

  /** The resource a suspended validation has claimed, taken out of `active`. */
  lemma Claimed(s: State, home: seq<Home>, call: Id) returns (lifted: State, up: seq<Home>)
    requires Inv(s, home) && call in s.tasks && s.tasks[call].Validating?
    ensures var r := s.tasks[call].res;
      && r < |home| && home[r] == AtActive(Checking(call)) && up == home[r := InTransit]
      && lifted == Finish(s, call).(active := s.active - {r}) && Lifted(lifted, up, r) && Free(lifted, call)
      && lifted.active + {r} == s.active
  {
    hide Buckets, Hands, Queue, Calls, InOrder;
    var r := s.tasks[call].res;
    Suspended(s, call);
    CallsFinish(s, call);
    FactoryFinish(s.tasks, call);
    HandsFinish(s.tasks, s.held, home, call, InTransit);
    TakeActive(s, home, r);
    up := home[r := InTransit];
    lifted := Finish(s, call).(active := s.active - {r});
  }

  lemma ValidatedKeeps(s: State, home: seq<Home>, call: Id, check: Check) returns (home': seq<Home>)
    requires Inv(s, home) && call in s.tasks && s.tasks[call].Validating?
    ensures Inv(Validated(s, call, check), home')
    ensures check != Threw ==> SameStranded(home, home')
    ensures check == Threw ==> s.tasks[call].res < |home| && home' == home[s.tasks[call].res := AtActive(Stranded)]
  {
    hide Inv, Lifted, Validated;
    match check
    case Valid => home' := ValidKeeps(s, home, call);
    case Invalid => home' := InvalidKeeps(s, home, call);
    case Threw => home' := ThrewKeeps(s, home, call);
  }

  lemma ValidKeeps(s: State, home: seq<Home>, call: Id) returns (home': seq<Home>)
    requires Inv(s, home) && call in s.tasks && s.tasks[call].Validating?
    ensures Inv(Validated(s, call, Valid), home') && SameStranded(home, home')
  {
    hide Inv, Lifted, Free;
    var r := s.tasks[call].res;
    var lifted, up := Claimed(s, home, call);
    GiveKeeps(lifted, up, r, call);
    home' := up[r := AtActive(Held(call))];
    assert Give(lifted, call, r) == Validated(s, call, Valid);
  }

  lemma InvalidKeeps(s: State, home: seq<Home>, call: Id) returns (home': seq<Home>)
    requires Inv(s, home) && call in s.tasks && s.tasks[call].Validating?
    ensures Inv(Validated(s, call, Invalid), home') && SameStranded(home, home')
  {
    hide Buckets, Hands, Queue, Calls, InOrder;
    var r, task := s.tasks[call].res, Discarding(s.tasks[call].timed);
    var lifted, up := Claimed(s, home, call);
    assert lifted.tasks[call := task] == s.tasks[call := task];
    CallsStart(lifted, call, task);
    HandsPlain(lifted.tasks, s.held, up, call, task);
    FactoryUpdate(lifted.tasks, call, task);
    var discarding := lifted.(tasks := s.tasks[call := task]);
    assert Lifted(discarding, up, r);
    DoomKeeps(discarding, up, r);
    home' := up[r := Destroyed];
  }

  lemma ThrewKeeps(s: State, home: seq<Home>, call: Id) returns (home': seq<Home>)
    requires Inv(s, home) && call in s.tasks && s.tasks[call].Validating?
    ensures Inv(Validated(s, call, Threw), home')
    ensures s.tasks[call].res < |home| && home' == home[s.tasks[call].res := AtActive(Stranded)]
  {
    hide Buckets, Hands, Queue, Calls, InOrder;
    var r := s.tasks[call].res;
    var lifted, up := Claimed(s, home, call);
    HandsFinish(s.tasks, s.held, home, call, AtActive(Stranded));
    home' := home[r := AtActive(Stranded)];
    PutActive(lifted, up, r, Stranded);
    assert up[r := AtActive(Stranded)] == home';
    Conclude(Finish(s, call), call, ValidateThrew);
  }

  lemma DiscardedKeeps(s: State, home: seq<Home>, call: Id) returns (home': seq<Home>)
    requires Inv(s, home) && call in s.tasks && s.tasks[call].Discarding?
    ensures Inv(Discarded(s, call), home')
    ensures SameStranded(home, home')
  {
    Suspended(s, call);
    CallsFinish(s, call);
    FactoryFinish(s.tasks, call);
    HandsPlain(s.tasks, s.held, home, call, Pumping);
    home' := LookKeeps(Finish(s, call), home, call, s.tasks[call].timed);
  }

  lemma FailOneKeeps(s: State, home: seq<Home>)
    requires Inv(s, home)
    ensures Inv(FailOne(s), home)
  {
    hide Buckets, Hands, Queue, Calls, InOrder;
    NoneSettled(s);
    if s.waiters != [] {
      Serve(s, CreateFailed);
    }
  }

  lemma CreatedKeeps(s: State, home: seq<Home>, t: Id, ok: bool) returns (home': seq<Home>)
    requires Inv(s, home) && t in s.tasks && s.tasks[t].Creating?
    ensures Inv(Created(s, t, ok), home')
    ensures SameStranded(home, home')
  {
    hide Buckets, Hands, Queue, Calls, InOrder;
    Suspended(s, t);
    CallsFinish(s, t);
    FactoryFinish(s.tasks, t);
    HandsPlain(s.tasks, s.held, home, t, Pumping);
    var s1, r := Finish(s, t).(pending := s.pending - 1), s.made;
    assert Inv(s1, home);
    if !ok {
      home' := home;
      if s.tasks[t].purpose == ForCaller {
        Conclude(s1, t, CreateFailed);
      } else if s.tasks[t].purpose == ForWaiter {
        FailOneKeeps(s1, home);
      }
    } else {
      TakeNew(s1, home);
      home' := ArrivedKeeps(s1.(made := s.made + 1), home + [InTransit], t, s.tasks[t].purpose);
    }
  }

  /** The factory's answer `r` to the call `t` finds its place. */
  lemma ArrivedKeeps(s: State, up: seq<Home>, t: Id, purpose: Purpose) returns (home': seq<Home>)
    requires s.made > 0 && Lifted(s, up, s.made - 1) && (purpose == ForCaller ==> Free(s, t))
    ensures var r := s.made - 1;
      Inv(match purpose
          case ForCaller => Give(s, t, r)
          case ForWaiter => if s.draining then Doom(s, r) else Deliver(s, r)
          case ForWarmth => if s.draining then Doom(s, r) else Park(s, r), home')
    ensures SameStranded(up, home')
  {
    hide Buckets, Hands, Queue, Calls, InOrder;
    var r := s.made - 1;
    if purpose == ForCaller {
      GiveKeeps(s, up, r, t);
      home' := up[r := AtActive(Held(t))];
    } else if s.draining {
      DoomKeeps(s, up, r);
      home' := up[r := Destroyed];
    } else if purpose == ForWaiter {
      home' := DeliverKeeps(s, up, r);
    } else {
      ParkKeeps(s, up, r);
      home' := up[r := AtIdle];
    }
  }

  /** A holder lets go. */
  lemma LetGo(s: State, home: seq<Home>, call: Id) returns (up: seq<Home>)
    requires Inv(s, home) && call in s.held
    ensures var r := s.held[call];
      r in s.active && r !in s.idle && r !in s.handoff && r !in s.idleTimers &&
      Lifted(s.(held := s.held - {call}, active := s.active - {r}), up, r) &&
      r < |home| && home[r].AtActive? && home[r] != AtActive(Stranded) && up == home[r := InTransit]
  {
    hide Buckets, Hands, Queue, Calls, InOrder;
    var r := s.held[call];
    HandsDrop(s.tasks, s.held, home, call);
    TakeActive(s, home, r);
    CallsRelease(s, call);
    up := home[r := InTransit];
  }

  lemma SpawnHanding(s: State, home: seq<Home>, r: Res) returns (home': seq<Home>)
    requires Lifted(s, home, r)
    ensures Inv(Spawn(s.(handoff := s.handoff + {r}), Handing(r)), home')
    ensures SameStranded(home, home')
  {
    hide Buckets, Hands, Queue, Calls, InOrder;
    var t := s.nextId;
    home' := home[r := AtHandoff(t)];
    CallsFresh(s);
    PutHandoff(s, home, r, t);
    HandsGrip(s.tasks, s.held, home, r, t, false);
    FactoryUpdate(s.tasks, t, Handing(r));
    CallsStart(s.(nextId := t + 1), t, Handing(r));
  }

  lemma ReleaseKeeps(s: State, home: seq<Home>, call: Id) returns (home': seq<Home>)
    requires Inv(s, home) && call in s.held
    ensures Inv(Release(s, call), home')
    ensures SameStranded(home, home')
  {
    hide Buckets, Hands, Queue, Calls, InOrder;
    var r := s.held[call];
    var up := LetGo(s, home, call);
    var s2 := s.(held := s.held - {call}).(active := s.active - {r});
    if s.draining {
      DoomKeeps(s2, up, r);
      home' := up[r := Destroyed];
    } else if CountLive(s.waiters, s.settled) == 0 {
      ParkKeeps(s2, up, r);
      home' := up[r := AtIdle];
    } else {
      home' := SpawnHanding(s2, up, r);
    }
  }

  lemma RemoveAbsent(rs: seq<Res>, r: Res)
    requires r !in rs
    ensures RemoveFirst(rs, r) == rs
  {
    if rs != [] {
      RemoveAbsent(rs[1..], r);
    }
  }

  /** The resource a hand-off has claimed, taken out of `handoff`. */
  lemma HandClaimed(s: State, home: seq<Home>, t: Id) returns (lifted: State, up: seq<Home>)
    requires Inv(s, home) && t in s.tasks && s.tasks[t].Handing?
    ensures var r := s.tasks[t].res;
      && r < |home| && home[r] == AtHandoff(t) && up == home[r := InTransit]
      && lifted == Finish(s.(handoff := s.handoff - {r}), t) && Lifted(lifted, up, r)
      && r !in s.idle && r !in s.active && r !in s.idleTimers && t < s.nextId && t !in s.arrivals
  {
    hide Hands, Queue, Calls, InOrder;
    var r := s.tasks[t].res;
    Suspended(s, t);
    CallsFinish(s, t);
    FactoryFinish(s.tasks, t);
    HandsFinish(s.tasks, s.held, home, t, InTransit);
    up := home[r := InTransit];
    TakeHandoff(s, home, r);
    lifted := Finish(s.(handoff := s.handoff - {r}), t);
  }

  lemma HandedKeeps(s: State, home: seq<Home>, t: Id, valid: bool) returns (home': seq<Home>)
    requires Inv(s, home) && t in s.tasks && s.tasks[t].Handing?
    ensures Inv(Handed(s, t, valid), home')
    ensures SameStranded(home, home')
  {
    hide Inv, Lifted, Doom, Deliver, Forget;
    if !s.draining && !valid {
      home' := UnfitKeeps(s, home, t);
    } else {
      var r := s.tasks[t].res;
      var lifted, up := HandClaimed(s, home, t);
      if s.draining {
        DoomKeeps(lifted, up, r);
        home' := up[r := Destroyed];
      } else {
        home' := DeliverKeeps(lifted, up, r);
      }
    }
  }

  lemma UnfitKeeps(s: State, home: seq<Home>, t: Id) returns (home': seq<Home>)
    requires Inv(s, home) && t in s.tasks && s.tasks[t].Handing? && !s.draining
    ensures Inv(Handed(s, t, false), home') && SameStranded(home, home')
  {
    hide Buckets, Hands, Queue, Calls, InOrder;
    var r := s.tasks[t].res;
    var lifted, up := HandClaimed(s, home, t);
    CallsStart(lifted, t, Pumping);
    HandsPlain(lifted.tasks, s.held, up, t, Pumping);
    FactoryUpdate(lifted.tasks, t, Pumping);
    var pumping := lifted.(tasks := lifted.tasks[t := Pumping]);
    assert Lifted(pumping, up, r);
    DoomKeeps(pumping, up, r);
    home' := up[r := Destroyed];
    UnfitIsForgotten(s, t, lifted, r);
  }

  lemma UnfitIsForgotten(s: State, t: Id, lifted: State, r: Res)
    requires t in s.tasks && s.tasks[t].Handing? && s.tasks[t].res == r && !s.draining
    requires lifted == Finish(s.(handoff := s.handoff - {r}), t) && r !in s.idle && r !in s.active && r !in s.idleTimers
    ensures Handed(s, t, false) == Doom(lifted.(tasks := lifted.tasks[t := Pumping]), r)
  {
    RemoveAbsent(s.idle, r);
    assert s.active - {r} == s.active && s.idleTimers - {r} == s.idleTimers && lifted.handoff - {r} == lifted.handoff;
    assert s.tasks[t := Pumping] == lifted.tasks[t := Pumping];
  }

  lemma DestroyKeeps(s: State, home: seq<Home>, call: Id) returns (home': seq<Home>)
    requires Inv(s, home) && call in s.held
    ensures Inv(Destroy(s, call), home')
    ensures SameStranded(home, home')
  {
    hide Buckets, Hands, Queue, Calls, InOrder;
    var r := s.held[call];
    var up := LetGo(s, home, call);
    RemoveAbsent(s.idle, r);
    assert s.handoff - {r} == s.handoff && s.idleTimers - {r} == s.idleTimers;
    var s1 := s.(held := s.held - {call}, active := s.active - {r});
    CallsFresh(s1);
    CallsStart(s1.(nextId := s.nextId + 1), s.nextId, Pumping);
    HandsPlain(s1.tasks, s1.held, up, s.nextId, Pumping);
    FactoryUpdate(s1.tasks, s.nextId, Pumping);
    DoomKeeps(Spawn(s1, Pumping), up, r);
    home' := up[r := Destroyed];
  }

  lemma StartFactoriesKeeps(s: State, home: seq<Home>, n: nat, purpose: Purpose)
    requires Inv(s, home) && Size(s) + n <= s.cfg.max && purpose != ForCaller
    ensures Inv(StartFactories(s, n, purpose), home)
    decreases n
  {
    hide Buckets, Hands, Queue, Calls, InOrder;
    if n != 0 {
      var task, t := Creating(purpose), s.nextId;
      CallsFresh(s);
      CallsStart(s.(nextId := t + 1), t, task);
      HandsPlain(s.tasks, s.held, home, t, task);
      FactoryUpdate(s.tasks, t, task);
      StartFactoriesKeeps(Spawn(s.(pending := s.pending + 1), task), home, n - 1, purpose);
    }
  }

  lemma EnsureMinKeeps(s: State, home: seq<Home>)
    requires Inv(s, home)
    ensures Inv(EnsureMin(s), home)
  {
    hide Buckets, Hands, Queue, Calls, InOrder;
    if !s.draining && Size(s) < s.cfg.min {
      StartFactoriesKeeps(s, home, s.cfg.min - Size(s), ForWarmth);
    }
  }

  lemma {:induction false} PumpOnKeeps(s: State, home: seq<Home>, live: nat, throws: seq<bool>)
    requires Inv(s, home)
    ensures Inv(PumpOn(s, live, throws), home)
    decreases live
  {
    hide Inv, FailOne;
    if live > 0 && Size(s) < s.cfg.max {
      var rest := if throws == [] then [] else throws[1..];
      FailOneKeeps(s, home);
      StartFactoriesKeeps(s, home, 1, ForWaiter);
      var started := Spawn(s.(pending := s.pending + 1), Creating(ForWaiter));
      assert StartFactories(started, 0, ForWaiter) == started;
      PumpOnKeeps(if throws != [] && throws[0] then FailOne(s) else started, home, live - 1, rest);
    }
  }

  lemma PumpedKeeps(s: State, home: seq<Home>, t: Id, throws: seq<bool>)
    requires Inv(s, home) && t in s.tasks && s.tasks[t].Pumping?
    ensures Inv(Pumped(s, t, throws), home)
  {
    hide Buckets, Hands, Queue, Calls, InOrder;
    CallsFinish(s, t);
    FactoryFinish(s.tasks, t);
    HandsPlain(s.tasks, s.held, home, t, Pumping);
    var s1 := Finish(s, t);
    PumpOnKeeps(s1, home, CountLive(s1.waiters, s1.settled), throws);
  }

  lemma RejectAllKeeps(s: State)
    requires Orderly(s)
    ensures var s' := RejectAll(s);
      Orderly(s') && s' == s.(waiters := [], settled := s'.settled, armed := s'.armed, results := s'.results)
    decreases |s.waiters|
  {
    hide Queue, Calls, InOrder;
    NoneSettled(s);
    if s.waiters != [] {
      HeadFacts(s);
      Serve(s, PoolDraining);
      RejectAllKeeps(SettleHead(s).(results := s.results[s.waiters[0].call := PoolDraining]));
    }
  }

  /** The idle list becomes the work of the drain `t`. */
  lemma TakeAllIdle(s: State, home: seq<Home>, t: Id) returns (home': seq<Home>)
    requires Homed(s, home) && t !in s.tasks
    ensures |home'| == |home|
    ensures Buckets([], s.active, s.handoff, s.destroyed, s.idleTimers, home')
    ensures Hands(s.tasks[t := Draining(s.idle)], s.held, home')
    ensures forall r: Res :: r < |home| && home'[r] == InTransit ==> home[r] == InTransit
    ensures SameStranded(home, home')
  {
    home' := seq(|home|, r requires 0 <= r < |home| => if home[r] == AtIdle then AtDrain(t) else home[r]);
    var tasks := s.tasks[t := Draining(s.idle)];
    forall u | u in tasks ensures Grips(u, tasks[u], home') {
      assert u in s.tasks ==> Grips(u, s.tasks[u], home);
    }
    forall r: Res | r < |home'| ensures InHand(tasks, s.held, r, home'[r]) {
      assert InHand(s.tasks, s.held, r, home[r]);
    }
  }

  lemma DrainKeeps(s: State, home: seq<Home>) returns (home': seq<Home>)
    requires Inv(s, home)
    ensures Inv(Drain(s), home')
    ensures SameStranded(home, home')
  {
    hide Buckets, Hands, Queue, Calls, InOrder;
    home' := home;
    if !s.draining {
      var s0 := s.(draining := true);
      RejectAllKeeps(s0);
      var s1, t := RejectAll(s0), s.nextId;
      CallsFresh(s1);
      CallsStart(s1.(nextId := t + 1), t, Draining(s1.idle));
      FactoryUpdate(s1.tasks, t, Draining(s1.idle));
      home' := TakeAllIdle(s1, home, t);
      home' := DrainOnKeeps(Spawn(s1.(idle := []), Draining(s1.idle)), home', t);
    }
  }

  lemma DrainOnMoves(s: State, home: seq<Home>, t: Id)
    requires Homed(s, home) && t in s.tasks && s.tasks[t].Draining? && s.tasks[t].rest != []
    ensures s.tasks[t].rest[0] < |home| && home[s.tasks[t].rest[0]] == AtDrain(t)
    ensures var r := s.tasks[t].rest[0];
      Buckets(s.idle, s.active, s.handoff, s.destroyed + [r], s.idleTimers - {r}, home[r := Destroyed])
    ensures var r := s.tasks[t].rest[0];
      Hands(s.tasks[t := Draining(s.tasks[t].rest[1..])], s.held, home[r := Destroyed])
  {
    var rest := s.tasks[t].rest;
    assert Grips(t, s.tasks[t], home);
    assert rest[0] in rest && forall r :: r in rest <==> r == rest[0] || r in rest[1..];
    AppendMembers(s.destroyed, rest[0]);
    var home', tasks := home[rest[0] := Destroyed], s.tasks[t := Draining(rest[1..])];
    forall u | u in tasks ensures Grips(u, tasks[u], home') {
      assert Grips(u, s.tasks[u], home);
    }
    forall r: Res | r < |home'| ensures InHand(tasks, s.held, r, home'[r]) {
      assert InHand(s.tasks, s.held, r, home[r]);
    }
  }

  lemma DrainOnKeeps(s: State, home: seq<Home>, t: Id) returns (home': seq<Home>)
    requires Inv(s, home) && t in s.tasks && s.tasks[t].Draining?
    ensures Inv(DrainOn(s, t), home')
    ensures SameStranded(home, home')
  {
    hide Buckets, Hands, Queue, Calls, InOrder;
    var rest := s.tasks[t].rest;
    home' := home;
    Suspended(s, t);
    if rest == [] {
      CallsFinish(s, t);
      FactoryFinish(s.tasks, t);
      HandsPlain(s.tasks, s.held, home, t, Pumping);
    } else {
      DrainOnMoves(s, home, t);
      CallsStart(s, t, Draining(rest[1..]));
      FactoryUpdate(s.tasks, t, Draining(rest[1..]));
      home' := home[rest[0] := Destroyed];
    }
  }

  lemma IdleTimeoutKeeps(s: State, home: seq<Home>, r: Res) returns (home': seq<Home>)
    requires Inv(s, home)
    ensures Inv(IdleTimeout(s, r), home')
    ensures SameStranded(home, home')
  {
    hide Buckets, Hands, Queue, Calls, InOrder;
    var s1 := s.(idleTimers := s.idleTimers - {r});
    home' := home;
    DropTimer(s, home, r);
    assert Inv(s1, home);
    if r in s.idle {
      if |s.idle| + |s.active| > s.cfg.min {
        TakeIdle(s, home, r);
        HandsLoose(s.tasks, s.held, home, r, InTransit);
        var up := home[r := InTransit];
        DoomKeeps(s1.(idle := RemoveFirst(s.idle, r)), up, r);
        home' := up[r := Destroyed];
      } else {
        EnsureMinKeeps(s1, home);
      }
    }
  }

  lemma AcquireTimeoutKeeps(s: State, home: seq<Home>, w: Waiter)
    requires Inv(s, home) && w.ticket < |s.arrivals| && s.arrivals[w.ticket] == w.call
    ensures Inv(AcquireTimeout(s, w), home)
  {
    hide Buckets, Hands, Queue, Calls, InOrder;
    if w.ticket !in s.settled {
      QueueTimeout(s, w);
      CallsTimeout(s, w);
    }
  }

  // ----- every run -----

  lemma StepKeeps(s: State, home: seq<Home>, e: Event) returns (home': seq<Home>)
    requires Inv(s, home) && Enabled(s, e)
    ensures Inv(Step(s, e), home')
    ensures match e
      case EValidated(call, Threw) => s.tasks[call].res < |home| && home' == home[s.tasks[call].res := AtActive(Stranded)]
      case _ => SameStranded(home, home')
  {
    hide Buckets, Hands, Queue, Calls, InOrder;
    match e
    case EAcquire(timed) => home' := AcquireKeeps(s, home, timed);
    case EValidated(call, check) => home' := ValidatedKeeps(s, home, call, check);
    case EDiscarded(call) => home' := DiscardedKeeps(s, home, call);
    case ECreated(t, ok) => home' := CreatedKeeps(s, home, t, ok);
    case ERelease(call) => home' := ReleaseKeeps(s, home, call);
    case EHanded(t, valid) => home' := HandedKeeps(s, home, t, valid);
    case EDestroy(call) => home' := DestroyKeeps(s, home, call);
    case EPumped(t, throws) => home' := home; PumpedKeeps(s, home, t, throws);
    case EEnsureMin => home' := home; EnsureMinKeeps(s, home);
    case EDrain => home' := DrainKeeps(s, home);
    case EDrainOn(t) => home' := DrainOnKeeps(s, home, t);
    case EIdleTimeout(r) => home' := IdleTimeoutKeeps(s, home, r);
    case EAcquireTimeout(w) => home' := home; AcquireTimeoutKeeps(s, home, w);
    case EReopen => home' := home;
  }

  ghost predicate Good(s: State) {
    exists home :: Inv(s, home)
  }

  lemma {:induction false} RunKeeps(s: State, es: seq<Event>)
    requires Good(s) && CanRun(s, es)
    ensures Good(Run(s, es))
    decreases |es|
  {
    hide Inv;
    if es != [] {
      var home :| Inv(s, home);
      var home' := StepKeeps(s, home, es[0]);
      RunKeeps(Step(s, es[0]), es[1..]);
    }
  }

  lemma FreshPool(cfg: Config)
    requires cfg.min <= cfg.max && 1 <= cfg.max
    ensures Inv(Init(cfg), [])
  {
    assert InFactory(map[]) == {};
  }
}
