/** What each uninterrupted stretch of `Cronus.ts` does to the scheduler.

    Actions and listeners are foreign code that may call back into the scheduler while a tick is still going through
    its jobs, so a tick is a frame whose visits are separate steps, and a run is in flight from its start to its
    completion. Nothing restricts the order of events: every nesting and interleaving of calls is a run of `Step`. */
module CronusModel {
  import opened CronText
  import opened CronMatching

  const CLOCK_JITTER_MINUTES := 2

  /** Job records are numbered in the order they are registered. */
  type Id = nat

  /** An instant: its epoch minute and its local calendar fields. */
  datatype Moment = Moment(minute: int, year: int, date: Date)
  datatype LocalKey = LocalKey(year: int, month: nat, date: nat, hours: nat, minutes: nat)

  datatype Job = Job(
    name: string, plan: ParsedSchedule, once: bool,
    enabled: bool, running: bool, runCount: nat, lastLocalFire: Option<LocalKey>)

  /** A tick under way: the jobs of its snapshot not yet visited, and the timer chain to re-arm after them, if any. */
  datatype Frame = Frame(rest: seq<Id>, chain: Option<nat>)

  /** An evaluated tick, and how many records had been registered by then. */
  datatype Evaluation = Evaluation(at: Moment, known: nat)

  /** A run started, by a tick or else by `trigger`. */
  datatype Start = Start(job: Id, tick: Option<nat>)

  datatype State = State(
    // the scheduler's fields
    jobs: map<string, Id>, parsed: map<string, ParsedSchedule>, records: seq<Job>,
    active: bool, generation: nat, timer: Option<nat>, lastTickMinute: int,
    // its surroundings: armed timers with their generations, ticks and runs under way, and the history
    armed: map<nat, nat>, timersMade: nat, frames: map<nat, Frame>, runs: map<nat, Id>,
    evaluated: seq<Evaluation>, starts: seq<Start>)

  const Fresh := State(map[], map[], [], false, 0, None, -1, map[], 0, map[], map[], [], [])

  datatype Event =
    | Add(name: string, schedule: string, once: bool, enabled: bool)
    | Remove(name: string)
    | Switch(name: string, on: bool)  // enable and disable
    | Trigger(name: string)
    | Begin | Stop                    // start and stop
    | Tick(at: Moment)                // a subclass driving ticks itself
    | Fire(timer: nat, at: Moment)    // a timer's callback
    | Visit(frame: nat)               // a tick looks at the next job of its snapshot
    | EndTick(frame: nat)
    | Complete(run: nat)              // an action settles

  // ----- pieces -----

  function Set(s: State, id: Id, job: Job): State
    requires id < |s.records|
  {
    s.(records := s.records[id := job])
  }

  /** The registered records in order of registration: what `[...jobs.values()]` lists. */
  function Snapshot(jobs: map<string, Id>, records: seq<Job>, n: nat): seq<Id>
    requires n <= |records|
  {
    if n == 0 then []
    else Snapshot(jobs, records, n - 1) + if IsRegistered(jobs, records[n - 1].name, n - 1) then [n - 1] else []
  }

  predicate IsRegistered(jobs: map<string, Id>, name: string, id: Id) {
    name in jobs && jobs[name] == id
  }

  /** `__run` up to the action's first suspension. */
  function Launch(s: State, id: Id, tick: Option<nat>): State
    requires id < |s.records|
  {
    Set(s, id, s.records[id].(running := true, runCount := s.records[id].runCount + 1))
      .(runs := s.runs[|s.starts| := id], starts := s.starts + [Start(id, tick)])
  }

  /** `__scheduleTick`. */
  function Arm(s: State, generation: nat): State {
    if !s.active || generation != s.generation then s
    else s.(armed := s.armed[s.timersMade := generation], timer := Some(s.timersMade), timersMade := s.timersMade + 1)
  }

  /** Whether the guard on the last evaluated minute lets a tick through. */
  predicate LetsThrough(last: int, minute: int) {
    !(minute == last || (minute < last && last - minute <= CLOCK_JITTER_MINUTES))
  }

  /** `_tick` up to its loop, and what a timer's callback does after a tick that was not let through. */
  function Evaluate(s: State, at: Moment, chain: Option<nat>): State {
    if !LetsThrough(s.lastTickMinute, at.minute) then
      if chain.Some? then Arm(s, chain.value) else s
    else
      s.(lastTickMinute := at.minute,
         frames := s.frames[|s.evaluated| := Frame(Snapshot(s.jobs, s.records, |s.records|), chain)],
         evaluated := s.evaluated + [Evaluation(at, |s.records|)])
  }

  function KeyOf(at: Moment): LocalKey {
    LocalKey(at.year, at.date.month, at.date.date, at.date.hours, at.date.minutes)
  }

  /** One turn of the tick's loop, for record `id`. */
  function Look(s: State, id: Id, frame: nat, at: Moment): State
    requires id < |s.records|
  {
    var job := s.records[id];
    if !IsRegistered(s.jobs, job.name, id) then s
    else if !job.enabled then s
    else if job.name !in s.parsed || !Matches(s.parsed[job.name], at.date) then s
    else if s.parsed[job.name].fixedTime && job.lastLocalFire == Some(KeyOf(at)) then s
    else if job.running then s
    else Launch(if s.parsed[job.name].fixedTime then Set(s, id, job.(lastLocalFire := Some(KeyOf(at)))) else s, id, Some(frame))
  }

  function Unguard(s: State, run: nat): State
    requires run in s.runs && s.runs[run] < |s.records|
  {
    Set(s, s.runs[run], s.records[s.runs[run]].(running := false)).(runs := s.runs - {run})
  }

  /** The end of a run: the guard is released, and a one-shot job still registered is removed. */
  function Settle(s: State, run: nat): State
    requires run in s.runs && s.runs[run] < |s.records|
  {
    var id := s.runs[run];
    var job := s.records[id];
    if job.once && IsRegistered(s.jobs, job.name, id)
    then Unguard(s, run).(jobs := s.jobs - {job.name}, parsed := s.parsed - {job.name})
    else Unguard(s, run)
  }

  // ----- the public operations and the timer's callback -----

  function Added(s: State, name: string, schedule: string, once: bool, enabled: bool): State {
    if name in s.jobs || !Parse(schedule).Accepted? then s
    else
      var plan := Parse(schedule).schedule;
      s.(jobs := s.jobs[name := |s.records|], parsed := s.parsed[name := plan],
         records := s.records + [Job(name, plan, once, enabled, false, 0, None)])
  }

  function Removed(s: State, name: string): State {
    if name !in s.jobs then s else s.(jobs := s.jobs - {name}, parsed := s.parsed - {name})
  }

  function Switched(s: State, name: string, on: bool): State {
    if name !in s.jobs || s.jobs[name] >= |s.records| then s
    else Set(s, s.jobs[name], s.records[s.jobs[name]].(enabled := on))
  }

  function Triggered(s: State, name: string): State {
    if name !in s.jobs || s.jobs[name] >= |s.records| || s.records[s.jobs[name]].running then s
    else Launch(s, s.jobs[name], None)
  }

  function Begun(s: State): State {
    if s.active then s else Arm(s.(active := true, generation := s.generation + 1), s.generation + 1)
  }

  function Stopped(s: State): State {
    s.(active := false, generation := s.generation + 1, timer := None,
       armed := if s.timer.Some? then s.armed - {s.timer.value} else s.armed)
  }

  /** A timer of a stale generation dies without ticking. */
  function Fired(s: State, timer: nat, at: Moment): State
    requires timer in s.armed
  {
    var fired := s.(armed := s.armed - {timer});
    if s.armed[timer] != s.generation then fired else Evaluate(fired, at, Some(s.armed[timer]))
  }

  function Visited(s: State, f: nat): State
    requires f in s.frames && f < |s.evaluated| && s.frames[f].rest != [] && s.frames[f].rest[0] < |s.records|
  {
    var id := s.frames[f].rest[0];
    Look(s.(frames := s.frames[f := s.frames[f].(rest := s.frames[f].rest[1..])]), id, f, s.evaluated[f].at)
  }

  function Ended(s: State, f: nat): State
    requires f in s.frames
  {
    var done := s.(frames := s.frames - {f});
    if s.frames[f].chain.Some? then Arm(done, s.frames[f].chain.value) else done
  }

  // ----- the machine -----

  predicate Enabled(s: State, e: Event) {
    match e
    case Fire(timer, at) => timer in s.armed
    case Visit(f) => f in s.frames && f < |s.evaluated| && s.frames[f].rest != [] && s.frames[f].rest[0] < |s.records|
    case EndTick(f) => f in s.frames && s.frames[f].rest == []
    case Complete(run) => run in s.runs && s.runs[run] < |s.records|
    case _ => true
  }

  function Step(s: State, e: Event): State
    requires Enabled(s, e)
  {
    match e
    case Add(name, schedule, once, enabled) => Added(s, name, schedule, once, enabled)
    case Remove(name) => Removed(s, name)
    case Switch(name, on) => Switched(s, name, on)
    case Trigger(name) => Triggered(s, name)
    case Begin => Begun(s)
    case Stop => Stopped(s)
    case Tick(at) => Evaluate(s, at, None)
    case Fire(timer, at) => Fired(s, timer, at)
    case Visit(f) => Visited(s, f)
    case EndTick(f) => Ended(s, f)
    case Complete(run) => Settle(s, run)
  }

  ghost predicate CanRun(s: State, es: seq<Event>)
    decreases |es|
  {
    es == [] || (Enabled(s, es[0]) && CanRun(Step(s, es[0]), es[1..]))
  }

  ghost function Run(s: State, es: seq<Event>): State
    requires CanRun(s, es)
    decreases |es|
  {
    if es == [] then s else Run(Step(s, es[0]), es[1..])
  }
}
