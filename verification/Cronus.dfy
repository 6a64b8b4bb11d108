/** `Cronus.ts` itself: the scheduler, its job records, and a method for each uninterrupted stretch, proved to take the
    scheduler from one state of `CronusModel` to the next, whole state included.

    `around` stands for the surroundings: armed timers, ticks and runs under way, and their history. */
module CronusScheduler {
  import opened CronText
  import opened CronMatching
  import opened CronusModel

  datatype Surroundings = Surroundings(
    armed: map<nat, nat>, timersMade: nat, frames: map<nat, Frame>, runs: map<nat, Id>,
    evaluated: seq<Evaluation>, starts: seq<Start>)

  datatype Addition = Registered | DuplicateJob | InvalidAction | InvalidSchedule

  class CronusJob {
    const id: Id
    const name: string
    const plan: ParsedSchedule
    const once: bool
    var enabled: bool
    var running: bool
    var runCount: nat
    var lastLocalFire: Option<LocalKey>

    ghost function Value(): Job
      reads this
    {
      Job(name, plan, once, enabled, running, runCount, lastLocalFire)
    }

    constructor (id: Id, name: string, plan: ParsedSchedule, once: bool, enabled: bool)
      ensures this.id == id && Value() == Job(name, plan, once, enabled, false, 0, None)
    {
      this.id, this.name, this.plan, this.once, this.enabled := id, name, plan, once, enabled;
      running, runCount, lastLocalFire := false, 0, None;
    }
  }

  ghost function ValuesOf(records: seq<CronusJob>): (values: seq<Job>)
    reads records
    ensures |values| == |records| && forall i :: 0 <= i < |records| ==> values[i] == records[i].Value()
  {
    if records == [] then [] else ValuesOf(records[..|records| - 1]) + [records[|records| - 1].Value()]
  }

  ghost function IdsOf(jobs: map<string, CronusJob>): (ids: map<string, Id>)
    ensures ids.Keys == jobs.Keys && forall n :: n in jobs ==> ids[n] == jobs[n].id
  {
    map n | n in jobs :: jobs[n].id
  }

  /** A record's number is its place, so the records are distinct objects; and every job is one of them. */
  ghost predicate Known(jobs: map<string, CronusJob>, records: seq<CronusJob>) {
    && (forall i :: 0 <= i < |records| ==> records[i].id == i)
    && (forall n :: n in jobs ==> Has(records, jobs[n]))
  }

  ghost predicate Has(records: seq<CronusJob>, job: CronusJob) {
    job.id < |records| && records[job.id] == job
  }

  lemma Dropped(jobs: map<string, CronusJob>, records: seq<CronusJob>, name: string)
    requires Known(jobs, records)
    ensures Known(jobs - {name}, records) && IdsOf(jobs - {name}) == IdsOf(jobs) - {name}
  {
  }

  lemma Joined(jobs: map<string, CronusJob>, records: seq<CronusJob>, name: string, job: CronusJob)
    requires Known(jobs, records) && job.id == |records|
    ensures Known(jobs[name := job], records + [job])
    ensures IdsOf(jobs[name := job]) == IdsOf(jobs)[name := job.id]
    ensures ValuesOf(records + [job]) == ValuesOf(records) + [job.Value()]
  {
    assert Known(jobs[name := job], records + [job]) by {
      hide ValuesOf, IdsOf;
      var jobs' := jobs[name := job];
      forall n | n in jobs' ensures Has(records + [job], jobs'[n]) {
        if n != name { assert Has(records, jobs[n]); }
      }
    }
    hide Known;
    assert IdsOf(jobs[name := job]) == IdsOf(jobs)[name := job.id];
    assert (records + [job])[..|records|] == records;
  }

  /** Two records are one object exactly when they have one number. */
  lemma Identity(jobs: map<string, CronusJob>, records: seq<CronusJob>, name: string, job: CronusJob)
    requires Known(jobs, records) && Has(records, job) && name in jobs
    ensures jobs[name] == job <==> jobs[name].id == job.id
  {
  }

  class Cronus {
    var jobs: map<string, CronusJob>
    var parsed: map<string, ParsedSchedule>
    var records: seq<CronusJob>  // in order of registration, which is the order a Map lists
    var active: bool
    var generation: nat
    var timer: Option<nat>
    var lastTickMinute: int
    var around: Surroundings

    ghost predicate Valid()
      reads this`records, this`jobs
    {
      Known(jobs, records)
    }

    ghost function Abs(): State
      reads this, records
    {
      State(IdsOf(jobs), parsed, ValuesOf(records), active, generation, timer, lastTickMinute,
            around.armed, around.timersMade, around.frames, around.runs, around.evaluated, around.starts)
    }

    constructor ()
      ensures Valid() && Abs() == Fresh
    {
      jobs, parsed, records := map[], map[], [];
      active, generation, timer, lastTickMinute := false, 0, None, -1;
      around := Surroundings(map[], 0, map[], map[], [], []);
    }

    // ----- registration -----

    /** A taken name is refused first, then an action that is no function, then a schedule that does not parse. */
    method AddJob(name: string, schedule: string, callable: bool, once: bool, enabled: bool) returns (result: Addition)
      requires Valid()
      modifies this`jobs, this`parsed, this`records
      ensures Valid() && Abs() == if callable then Added(old(Abs()), name, schedule, once, enabled) else old(Abs())
      ensures result.DuplicateJob? <==> name in old(jobs)
      ensures result.InvalidAction? <==> name !in old(jobs) && !callable
      ensures result.InvalidSchedule? <==> name !in old(jobs) && callable && !Parse(schedule).Accepted?
    {
      hide ValuesOf, IdsOf, Known;
      if name in jobs { return DuplicateJob; }
      if !callable { return InvalidAction; }
      var plan := ParseSchedule(schedule);
      if !plan.Accepted? { return Addition.InvalidSchedule; }
      hide Parse;
      Register(name, plan.schedule, once, enabled);
      result := Registered;
    }

    /** A fresh record under the name. */
    method Register(name: string, plan: ParsedSchedule, once: bool, enabled: bool)
      requires Valid()
      modifies this`jobs, this`parsed, this`records
      ensures Valid()
      ensures var s := old(Abs());
        Abs() == s.(jobs := s.jobs[name := |s.records|], parsed := s.parsed[name := plan],
                    records := s.records + [Job(name, plan, once, enabled, false, 0, None)])
    {
      hide ValuesOf, IdsOf, Known;
      var job := new CronusJob(|records|, name, plan, once, enabled);
      Joined(jobs, records, name, job);
      parsed, jobs, records := parsed[name := plan], jobs[name := job], records + [job];
    }

    method RemoveJob(name: string) returns (removed: bool)
      requires Valid()
      modifies this`jobs, this`parsed
      ensures Valid() && Abs() == Removed(old(Abs()), name) && removed == (name in old(jobs))
    {
      hide ValuesOf, IdsOf, Known;
      Dropped(jobs, records, name);
      if name !in jobs { return false; }
      jobs, parsed := jobs - {name}, parsed - {name};
      removed := true;
    }

    /** `enable` and `disable`. */
    method SwitchJob(name: string, on: bool) returns (found: bool)
      requires Valid()
      modifies records
      ensures Valid() && Abs() == Switched(old(Abs()), name, on) && found == (name in jobs)
    {
      hide ValuesOf, IdsOf;
      if name !in jobs { return false; }
      var job := jobs[name];
      job.enabled := on;
      found := true;
    }

    // ----- the ticker -----

    method Begin()
      requires Valid()
      modifies this`active, this`generation, this`timer, this`around
      ensures Valid() && Abs() == Begun(old(Abs()))
    {
      hide ValuesOf, IdsOf;
      if active { return; }
      active := true;
      generation := generation + 1;
      ScheduleTick(generation);
    }

    method Stop()
      requires Valid()
      modifies this`active, this`generation, this`timer, this`around
      ensures Valid() && Abs() == Stopped(old(Abs()))
    {
      hide ValuesOf, IdsOf;
      active := false;
      generation := generation + 1;
      if timer.Some? {
        around := around.(armed := around.armed - {timer.value});
        timer := None;
      }
    }

    /** `__scheduleTick`: a stale chain does not re-arm. */
    method ScheduleTick(chain: nat)
      requires Valid()
      modifies this`timer, this`around
      ensures Valid() && Abs() == Arm(old(Abs()), chain)
    {
      hide ValuesOf, IdsOf;
      if !active || chain != generation { return; }
      timer := Some(around.timersMade);
      around := around.(armed := around.armed[around.timersMade := chain], timersMade := around.timersMade + 1);
    }

    /** The timer's callback, up to the loop of its tick. */
    method TimerFired(id: nat, at: Moment)
      requires Valid() && id in around.armed
      modifies this`lastTickMinute, this`timer, this`around
      ensures Valid() && Abs() == Fired(old(Abs()), id, at)
    {
      hide ValuesOf, IdsOf;
      var chain := around.armed[id];
      around := around.(armed := around.armed - {id});
      if chain != generation { return; }
      TickStarts(at, Some(chain));
    }

    /** `_tick` up to its loop: the clock guard, then the snapshot of the jobs. A tick not let through is over at once. */
    method TickStarts(at: Moment, chain: Option<nat>)
      requires Valid()
      modifies this`lastTickMinute, this`timer, this`around
      ensures Valid() && Abs() == Evaluate(old(Abs()), at, chain)
    {
      hide ValuesOf, IdsOf;
      if at.minute == lastTickMinute || (at.minute < lastTickMinute && lastTickMinute - at.minute <= CLOCK_JITTER_MINUTES) {
        if chain.Some? { ScheduleTick(chain.value); }
        return;
      }
      var snapshot := ListJobs();
      lastTickMinute, around := at.minute, around.(frames := around.frames[|around.evaluated| := Frame(snapshot, chain)],
                                                   evaluated := around.evaluated + [Evaluation(at, |records|)]);
    }

    method ListJobs() returns (list: seq<Id>)
      requires Valid()
      ensures list == Snapshot(IdsOf(jobs), ValuesOf(records), |records|)
    {
      list := [];
      for i := 0 to |records|
        invariant list == Snapshot(IdsOf(jobs), ValuesOf(records), i)
      {
        if records[i].name in jobs && jobs[records[i].name] == records[i] { list := list + [i]; }
      }
    }

    /** The tick's loop takes the next job of its snapshot. */
    method VisitNext(frame: nat)
      requires Valid() && frame in around.frames && frame < |around.evaluated|
      requires around.frames[frame].rest != [] && around.frames[frame].rest[0] < |records|
      modifies records, this`around
      ensures Valid() && Abs() == Visited(old(Abs()), frame)
    {
      hide ValuesOf, IdsOf, Look;
      var left := around.frames[frame];
      around := around.(frames := around.frames[frame := left.(rest := left.rest[1..])]);
      LookAt(records[left.rest[0]], frame, around.evaluated[frame].at);
    }

    /** One turn of that loop. */
    method LookAt(job: CronusJob, frame: nat, at: Moment)
      requires Valid() && Has(records, job)
      modifies job, this`around
      ensures Valid() && Abs() == Look(old(Abs()), job.id, frame, at)
    {
      hide ValuesOf, IdsOf, Matches, Launch, KeyOf;
      if job.name !in jobs || jobs[job.name] != job { return; }
      if !job.enabled { return; }
      if job.name !in parsed || !Matches(parsed[job.name], at.date) { return; }
      var fixed := parsed[job.name].fixedTime;
      if fixed && job.lastLocalFire == Some(KeyOf(at)) { return; }
      if job.running { return; }
      if fixed { Stamp(job, KeyOf(at)); }
      RunStarts(job, Some(frame));
    }

    method Stamp(job: CronusJob, key: LocalKey)
      requires Valid() && Has(records, job)
      modifies job
      ensures Valid() && Abs() == Set(old(Abs()), job.id, old(job.Value()).(lastLocalFire := Some(key)))
    {
      hide ValuesOf, IdsOf;
      job.lastLocalFire := Some(key);
    }

    /** The loop is done: a tick begun by a timer re-arms its chain. */
    method TickEnds(frame: nat)
      requires Valid() && frame in around.frames && around.frames[frame].rest == []
      modifies this`timer, this`around
      ensures Valid() && Abs() == Ended(old(Abs()), frame)
    {
      hide ValuesOf, IdsOf;
      var chain := around.frames[frame].chain;
      around := around.(frames := around.frames - {frame});
      if chain.Some? { ScheduleTick(chain.value); }
    }

    // ----- runs -----

    /** `trigger` up to its await. */
    method TriggerJob(name: string) returns (ran: bool)
      requires Valid()
      modifies records, this`around
      ensures Valid() && Abs() == Triggered(old(Abs()), name)
      ensures ran <==> name in jobs && !old(Abs()).records[old(Abs()).jobs[name]].running
    {
      hide ValuesOf, IdsOf;
      if name !in jobs { return false; }
      var job := jobs[name];
      if job.running { return false; }
      RunStarts(job, None);
      ran := true;
    }

    /** `__run` up to the action's first suspension. */
    method RunStarts(job: CronusJob, tick: Option<nat>)
      requires Valid() && Has(records, job)
      modifies job, this`around
      ensures Valid() && Abs() == Launch(old(Abs()), job.id, tick)
    {
      hide ValuesOf, IdsOf;
      job.running := true;
      job.runCount := job.runCount + 1;
      around := around.(runs := around.runs[|around.starts| := job.id], starts := around.starts + [Start(job.id, tick)]);
    }

    method ReleaseGuard(job: CronusJob, run: nat)
      requires Valid() && Has(records, job) && run in around.runs && around.runs[run] == job.id
      modifies job, this`around
      ensures Valid() && Abs() == Unguard(old(Abs()), run)
    {
      hide ValuesOf, IdsOf;
      job.running := false;
      around := around.(runs := around.runs - {run});
    }

    /** `__run` after its action has settled. */
    method RunEnds(job: CronusJob, run: nat)
      requires Valid() && Has(records, job) && run in around.runs && around.runs[run] == job.id
      modifies job, this`jobs, this`parsed, this`around
      ensures Valid() && Abs() == Settle(old(Abs()), run)
    {
      hide ValuesOf, IdsOf, Known, Unguard;
      Dropped(jobs, records, job.name);
      if job.name in jobs { Identity(jobs, records, job.name, job); }
      ReleaseGuard(job, run);
      if job.once && job.name in jobs && jobs[job.name] == job {
        jobs, parsed := jobs - {job.name}, parsed - {job.name};
      }
    }
  }
}
