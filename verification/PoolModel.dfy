/** What each uninterrupted stretch of `ConnectionPool.ts` does to the pool.

    The pool runs on a single thread and yields only at `await`, so its behaviour is a sequence of atomic
    stretches. `State` holds the pool's own fields together with what surrounds it: the suspended calls, the
    outcome of every `acquire` so far, who holds what, and the resources passed to the destroy hook. `Step`
    gives the stretch an `Event` runs; `Enabled` says when that event can happen. Nothing restricts the
    order of events, so a run of `Step` is any interleaving of any number of calls. */
module PoolModel {

  /** Resources are numbered in the order the factory returns them, so they are fresh by construction. */
  type Res = nat
  /** Suspended asynchronous calls; an `acquire` keeps its number from start to outcome. */
  type Id = nat

  /** `evicts` is `idleTimeoutMs > 0`. */
  datatype Config = Config(min: nat, max: nat, evicts: bool)

  datatype Purpose = ForCaller | ForWaiter | ForWarmth

  /** Where a suspended call stands. */
  datatype Task =
    | Validating(res: Res, timed: bool)  // acquire: awaiting validate on a claimed idle resource
    | Discarding(timed: bool)            // acquire: awaiting the destroy hook, will look again
    | Creating(purpose: Purpose)         // awaiting the factory
    | Handing(res: Res)                  // __handToWaiter: awaiting validate
    | Pumping                            // destroy: awaiting the hook, then pumps the waiters
    | Draining(rest: seq<Res>)           // drain: awaiting the hook, `rest` still to be passed to it

  /** How an `acquire` ended. */
  datatype Outcome = Got(res: Res) | PoolDraining | TimedOut | CreateFailed | ValidateThrew

  /** A queued acquirer: its place in the order of arrival, and its call. */
  datatype Waiter = Waiter(ticket: nat, call: Id)

  datatype State = State(
    cfg: Config,
    // the pool's fields
    idle: seq<Res>, active: set<Res>, handoff: set<Res>, pending: int,
    waiters: seq<Waiter>, settled: set<nat>, armed: set<nat>,
    idleTimers: set<Res>, draining: bool,
    // its surroundings
    tasks: map<Id, Task>, nextId: Id,
    arrivals: seq<Id>, results: map<Id, Outcome>, held: map<Id, Res>,
    made: nat, destroyed: seq<Res>)

  function Init(cfg: Config): State {
    State(cfg, [], {}, {}, 0, [], {}, {}, {}, false, map[], 0, [], map[], map[], 0, [])
  }

  function Size(s: State): int {
    |s.idle| + |s.active| + s.pending + |s.handoff|
  }

  // ----- pieces shared by several stretches -----

  /** The resource goes to the destroy hook. */
  function Doom(s: State, r: Res): State {
    s.(destroyed := s.destroyed + [r])
  }

  /** Back to the idle list, with an eviction timer unless the pool is at its floor. */
  function Park(s: State, r: Res): State {
    var s' := s.(idle := s.idle + [r]);
    if !s.cfg.evicts || |s'.idle| + |s'.active| <= s.cfg.min then s'
    else s'.(idleTimers := s.idleTimers + {r})
  }

  function Spawn(s: State, task: Task): State {
    s.(tasks := s.tasks[s.nextId := task], nextId := s.nextId + 1)
  }

  function Finish(s: State, t: Id): State {
    s.(tasks := s.tasks - {t})
  }

  function Give(s: State, call: Id, r: Res): State {
    s.(active := s.active + {r}, results := s.results[call := Got(r)], held := s.held[call := r])
  }

  function StartFactories(s: State, n: nat, purpose: Purpose): State
    decreases n
  {
    if n == 0 then s
    else StartFactories(Spawn(s.(pending := s.pending + 1), Creating(purpose)), n - 1, purpose)
  }

  /** The queue with its settled head entries skipped. */
  function DropSettled(ws: seq<Waiter>, settled: set<nat>): seq<Waiter> {
    if ws == [] || ws[0].ticket !in settled then ws else DropSettled(ws[1..], settled)
  }

  function CountLive(ws: seq<Waiter>, settled: set<nat>): nat {
    if ws == [] then 0 else (if ws[0].ticket in settled then 0 else 1) + CountLive(ws[1..], settled)
  }

  /** Settles the head of the queue and stops its timeout. */
  function SettleHead(s: State): State
    requires s.waiters != []
  {
    var w := s.waiters[0];
    s.(waiters := s.waiters[1..], settled := s.settled + {w.ticket}, armed := s.armed - {w.ticket})
  }

  /** `__resolveWaiter`, falling back to the idle list when no waiter is live. */
  function Deliver(s: State, r: Res): State {
    var q := s.(waiters := DropSettled(s.waiters, s.settled));
    if q.waiters == [] then Park(q, r) else Give(SettleHead(q), q.waiters[0].call, r)
  }

  /** `__shiftLiveWaiter` and the rejection of the waiter it returns. */
  function FailOne(s: State): State {
    var q := s.(waiters := DropSettled(s.waiters, s.settled));
    if q.waiters == [] then q
    else SettleHead(q).(results := q.results[q.waiters[0].call := CreateFailed])
  }

  function RejectAll(s: State): State
    decreases |s.waiters|
  {
    if s.waiters == [] then s
    else if s.waiters[0].ticket in s.settled then RejectAll(s.(waiters := s.waiters[1..]))
    else RejectAll(SettleHead(s).(results := s.results[s.waiters[0].call := PoolDraining]))
  }

  /** `acquire` from its idle loop on. */
  function Look(s: State, call: Id, timed: bool): State {
    if s.idle != [] then
      var r := s.idle[0];
      s.(idle := s.idle[1..], idleTimers := s.idleTimers - {r}, active := s.active + {r},
         tasks := s.tasks[call := Validating(r, timed)])
    else if Size(s) < s.cfg.max then
      s.(pending := s.pending + 1, tasks := s.tasks[call := Creating(ForCaller)])
    else
      var ticket := |s.arrivals|;
      s.(waiters := s.waiters + [Waiter(ticket, call)], arrivals := s.arrivals + [call],
         armed := if timed then s.armed + {ticket} else s.armed)
  }

  /** The loop of `__pumpWaiters` over so many live waiters. A factory that throws at once, before there is anything to
      await, fails a waiter on the spot and leaves the slot for the next turn; `throws` says which do. */
  function PumpOn(s: State, live: nat, throws: seq<bool>): State
    decreases live
  {
    if live == 0 || Size(s) >= s.cfg.max then s
    else
      PumpOn(if throws != [] && throws[0] then FailOne(s) else Spawn(s.(pending := s.pending + 1), Creating(ForWaiter)),
             live - 1, if throws == [] then [] else throws[1..])
  }

  function Pump(s: State, throws: seq<bool>): State {
    if s.draining then s else PumpOn(s, CountLive(s.waiters, s.settled), throws)
  }

  function EnsureMin(s: State): State {
    var need := s.cfg.min - Size(s);
    if s.draining || s.cfg.min == 0 || need <= 0 then s else StartFactories(s, need, ForWarmth)
  }

  function RemoveFirst(rs: seq<Res>, r: Res): seq<Res> {
    if rs == [] then [] else if rs[0] == r then rs[1..] else [rs[0]] + RemoveFirst(rs[1..], r)
  }

  function RemoveWaiter(ws: seq<Waiter>, w: Waiter): seq<Waiter> {
    if ws == [] then [] else if ws[0] == w then ws[1..] else [ws[0]] + RemoveWaiter(ws[1..], w)
  }

  // ----- the stretches -----

  function Acquire(s: State, timed: bool): State {
    var call, s' := s.nextId, s.(nextId := s.nextId + 1);
    if s.draining then s'.(results := s.results[call := PoolDraining]) else Look(s', call, timed)
  }

  datatype Check = Valid | Invalid | Threw

  function Validated(s: State, call: Id, check: Check): State
    requires call in s.tasks && s.tasks[call].Validating?
  {
    var r := s.tasks[call].res;
    match check
    case Valid => Give(Finish(s, call), call, r)
    case Invalid =>
      Doom(s.(active := s.active - {r}, tasks := s.tasks[call := Discarding(s.tasks[call].timed)]), r)
    case Threw => Finish(s, call).(results := s.results[call := ValidateThrew])
  }

  function Discarded(s: State, call: Id): State
    requires call in s.tasks && s.tasks[call].Discarding?
  {
    Look(Finish(s, call), call, s.tasks[call].timed)
  }

  /** The factory answered the call `t`; on success with the next fresh resource. */
  function Created(s: State, t: Id, ok: bool): State
    requires t in s.tasks && s.tasks[t].Creating?
  {
    var s1, r := Finish(s, t).(pending := s.pending - 1), s.made;
    if !ok then
      match s.tasks[t].purpose
      case ForCaller => s1.(results := s.results[t := CreateFailed])
      case ForWaiter => FailOne(s1)
      case ForWarmth => s1
    else
      var s2 := s1.(made := s.made + 1);
      match s.tasks[t].purpose
      case ForCaller => Give(s2, t, r)
      case ForWaiter => if s.draining then Doom(s2, r) else Deliver(s2, r)
      case ForWarmth => if s.draining then Doom(s2, r) else Park(s2, r)
  }

  /** `release`: a resource that is not handed out is ignored. */
  function GiveBack(s: State, r: Res): State {
    var s1 := s.(active := s.active - {r});
    if r !in s.active then s
    else if s.draining then Doom(s1, r)
    else if CountLive(s.waiters, s.settled) == 0 then Park(s1, r)
    else Spawn(s1.(handoff := s.handoff + {r}), Handing(r))
  }

  function Release(s: State, call: Id): State
    requires call in s.held
  {
    GiveBack(s.(held := s.held - {call}), s.held[call])
  }

  /** The validation of a hand-off ended; a throw counts as invalid. */
  function Handed(s: State, t: Id, valid: bool): State
    requires t in s.tasks && s.tasks[t].Handing?
  {
    var r := s.tasks[t].res;
    var s1 := s.(handoff := s.handoff - {r});
    if s.draining then Doom(Finish(s1, t), r)
    else if valid then Deliver(Finish(s1, t), r)
    else Forget(s1.(tasks := s1.tasks[t := Pumping]), r)
  }

  /** `destroy` up to its await: out of every bucket, and to the destroy hook. */
  function Forget(s: State, r: Res): State {
    Doom(s.(active := s.active - {r}, handoff := s.handoff - {r}, idle := RemoveFirst(s.idle, r),
            idleTimers := s.idleTimers - {r}), r)
  }

  /** The holder destroys what it holds. */
  function Destroy(s: State, call: Id): State
    requires call in s.held
  {
    Forget(Spawn(s.(held := s.held - {call}), Pumping), s.held[call])
  }

  function Pumped(s: State, t: Id, throws: seq<bool>): State {
    Pump(Finish(s, t), throws)
  }

  function Drain(s: State): State {
    if s.draining then s
    else
      var s1 := RejectAll(s.(draining := true));
      DrainOn(Spawn(s1.(idle := []), Draining(s1.idle)), s1.nextId)
  }

  /** One turn of the loop in `drain`; it returns when nothing is left. */
  function DrainOn(s: State, t: Id): State
    requires t in s.tasks && s.tasks[t].Draining?
  {
    var rest := s.tasks[t].rest;
    if rest == [] then Finish(s, t)
    else Doom(s.(idleTimers := s.idleTimers - {rest[0]}, tasks := s.tasks[t := Draining(rest[1..])]), rest[0])
  }

  function IdleTimeout(s: State, r: Res): State {
    var s1 := s.(idleTimers := s.idleTimers - {r});
    var size := |s.idle| + |s.active|;
    if r !in s.idle then s1
    else if size > s.cfg.min then Doom(s1.(idle := RemoveFirst(s.idle, r)), r)
    else if size < s.cfg.min && !s.draining then EnsureMin(s1)
    else s1
  }

  function AcquireTimeout(s: State, w: Waiter): State {
    if w.ticket in s.settled then s
    else s.(settled := s.settled + {w.ticket}, armed := s.armed - {w.ticket},
            waiters := RemoveWaiter(s.waiters, w), results := s.results[w.call := TimedOut])
  }

  // ----- runs -----

  datatype Event =
    | EAcquire(timed: bool)
    | EValidated(call: Id, check: Check)
    | EDiscarded(call: Id)
    | ECreated(t: Id, ok: bool)
    | ERelease(call: Id)
    | EHanded(t: Id, valid: bool)
    | EDestroy(call: Id)
    | EPumped(t: Id, throws: seq<bool>)
    | EEnsureMin
    | EDrain
    | EDrainOn(t: Id)
    | EIdleTimeout(r: Res)
    | EAcquireTimeout(w: Waiter)
    | EReopen  // `draining = false`, which `connect` does

  /** A suspended call resumes at most once per suspension; a timer fires only while set; and a caller
      releases or destroys what it holds, once. */
  predicate Enabled(s: State, e: Event) {
    match e
    case EValidated(call, _) => call in s.tasks && s.tasks[call].Validating?
    case EDiscarded(call) => call in s.tasks && s.tasks[call].Discarding?
    case ECreated(t, _) => t in s.tasks && s.tasks[t].Creating?
    case ERelease(call) => call in s.held
    case EDestroy(call) => call in s.held
    case EHanded(t, _) => t in s.tasks && s.tasks[t].Handing?
    case EPumped(t, _) => t in s.tasks && s.tasks[t].Pumping?
    case EDrainOn(t) => t in s.tasks && s.tasks[t].Draining?
    case EIdleTimeout(r) => r in s.idleTimers
    case EAcquireTimeout(w) => w.ticket in s.armed && w.ticket < |s.arrivals| && s.arrivals[w.ticket] == w.call
    case _ => true
  }

  function Step(s: State, e: Event): State
    requires Enabled(s, e)
  {
    match e
    case EAcquire(timed) => Acquire(s, timed)
    case EValidated(call, check) => Validated(s, call, check)
    case EDiscarded(call) => Discarded(s, call)
    case ECreated(t, ok) => Created(s, t, ok)
    case ERelease(call) => Release(s, call)
    case EHanded(t, valid) => Handed(s, t, valid)
    case EDestroy(call) => Destroy(s, call)
    case EPumped(t, throws) => Pumped(s, t, throws)
    case EEnsureMin => EnsureMin(s)
    case EDrain => Drain(s)
    case EDrainOn(t) => DrainOn(s, t)
    case EIdleTimeout(r) => IdleTimeout(s, r)
    case EAcquireTimeout(w) => AcquireTimeout(s, w)
    case EReopen => s.(draining := false)
  }

  /** The events of `es` can happen one after the other from `s`. */
  predicate CanRun(s: State, es: seq<Event>)
    decreases |es|
  {
    es == [] || (Enabled(s, es[0]) && CanRun(Step(s, es[0]), es[1..]))
  }

  function Run(s: State, es: seq<Event>): State
    requires CanRun(s, es)
    decreases |es|
  {
    if es == [] then s else Run(Step(s, es[0]), es[1..])
  }
}
