/** What holds of the scheduler after any run, and the theorems read off it. */
module CronusRuns {
  import opened CronText
  import opened CronMatching
  import opened CronusModel

  // ----- the invariant, one aspect at a time -----

  /** At most one live timer chain, armed or inside its tick; one exactly while the ticker is active. */
  ghost predicate OneChain(active: bool, generation: nat, timer: Option<nat>, armed: map<nat, nat>, made: nat, frames: map<nat, Frame>) {
    && (forall t :: t in armed ==> t < made && armed[t] == generation && timer == Some(t) && active)
    && (forall f :: f in frames && frames[f].chain.Some? ==> frames[f].chain.value <= generation)
    && (forall f :: f in frames && frames[f].chain == Some(generation) ==> active && armed == map[])
    && (forall f, g :: f in frames && g in frames && frames[f].chain == Some(generation) && frames[g].chain == Some(generation) ==> f == g)
    && (active ==> armed != map[] || exists f :: f in frames && frames[f].chain == Some(generation))
  }

  ghost predicate Registry(jobs: map<string, Id>, parsed: map<string, ParsedSchedule>, records: seq<Job>) {
    && jobs.Keys == parsed.Keys
    && (forall n :: n in jobs ==> jobs[n] < |records| && records[jobs[n]].name == n && parsed[n] == records[jobs[n]].plan)
  }

  /** A record's guard is up exactly while one run of it is in flight. */
  ghost predicate Guarded(records: seq<Job>, runs: map<nat, Id>, started: nat) {
    && (forall r :: r in runs ==> r < started && runs[r] < |records| && records[runs[r]].running)
    && (forall q, r :: q in runs && r in runs && runs[q] == runs[r] ==> q == r)
    && (forall id :: 0 <= id < |records| && records[id].running ==> exists r :: r in runs && runs[r] == id)
  }

  /** A one-shot record that has started is running or no longer registered. */
  ghost predicate OneShot(jobs: map<string, Id>, records: seq<Job>) {
    forall id :: 0 <= id < |records| && records[id].once && records[id].runCount > 0 ==>
      records[id].running || !IsRegistered(jobs, records[id].name, id)
  }

  ghost predicate History(records: seq<Job>, starts: seq<Start>) {
    && (forall i :: 0 <= i < |starts| ==> starts[i].job < |records| && records[starts[i].job].runCount > 0)
    && (forall i, j :: 0 <= i < j < |starts| && starts[i].job == starts[j].job ==> !records[starts[j].job].once)
  }

  /** A tick starts only jobs it found registered, each at most once, and only those its minute matches. */
  ghost predicate Ticked(records: seq<Job>, frames: map<nat, Frame>, evaluated: seq<Evaluation>, starts: seq<Start>) {
    && (forall t :: 0 <= t < |evaluated| ==> evaluated[t].known <= |records|)
    && (forall f :: f in frames ==> f < |evaluated| && Ahead(frames[f].rest, evaluated[f].known))
    && (forall i :: 0 <= i < |starts| && starts[i].tick.Some? ==> Rightly(records, evaluated, starts[i]))
    && (forall i :: 0 <= i < |starts| && starts[i].tick.Some? && starts[i].tick.value in frames ==>
          starts[i].job !in frames[starts[i].tick.value].rest)
    && (forall i, j :: 0 <= i < j < |starts| && starts[i].job == starts[j].job && starts[i].tick.Some? ==>
          starts[i].tick != starts[j].tick)
  }

  predicate Ahead(rest: seq<Id>, known: nat) {
    && (forall i :: 0 <= i < |rest| ==> rest[i] < known)
    && (forall i, j :: 0 <= i < j < |rest| ==> rest[i] != rest[j])
  }

  predicate Rightly(records: seq<Job>, evaluated: seq<Evaluation>, start: Start)
    requires start.tick.Some?
  {
    && start.tick.value < |evaluated| && start.job < evaluated[start.tick.value].known && start.job < |records|
    && Matches(records[start.job].plan, evaluated[start.tick.value].at.date)
  }

  predicate Minutes(last: int, evaluated: seq<Evaluation>) {
    && (evaluated != [] ==> last == evaluated[|evaluated| - 1].at.minute)
    && forall i :: 0 < i < |evaluated| ==> LetsThrough(evaluated[i - 1].at.minute, evaluated[i].at.minute)
  }

  ghost predicate Inv(s: State) {
    && OneChain(s.active, s.generation, s.timer, s.armed, s.timersMade, s.frames)
    && Registry(s.jobs, s.parsed, s.records)
    && Guarded(s.records, s.runs, |s.starts|)
    && OneShot(s.jobs, s.records)
    && History(s.records, s.starts)
    && Ticked(s.records, s.frames, s.evaluated, s.starts)
    && Minutes(s.lastTickMinute, s.evaluated)
  }

  // ----- pieces -----

  lemma {:induction false} SnapshotIsAhead(jobs: map<string, Id>, records: seq<Job>, n: nat)
    requires n <= |records|
    ensures Ahead(Snapshot(jobs, records, n), n)
    ensures forall id :: id in Snapshot(jobs, records, n) ==> id < n && IsRegistered(jobs, records[id].name, id)
  {
    if n > 0 { SnapshotIsAhead(jobs, records, n - 1); }
  }

  /** Everything but that the active ticker has a live chain. */
  ghost predicate AllButChain(s: State) {
    && Registry(s.jobs, s.parsed, s.records)
    && Guarded(s.records, s.runs, |s.starts|)
    && OneShot(s.jobs, s.records)
    && History(s.records, s.starts)
    && Ticked(s.records, s.frames, s.evaluated, s.starts)
    && Minutes(s.lastTickMinute, s.evaluated)
  }

  ghost predicate NoChain(generation: nat, frames: map<nat, Frame>) {
    forall f :: f in frames && frames[f].chain.Some? ==> frames[f].chain.value < generation
  }

  /** Arming a timer for the current generation when it has none. */
  lemma ArmKeeps(s: State)
    requires AllButChain(s) && s.active && s.armed == map[] && NoChain(s.generation, s.frames)
    ensures Inv(Arm(s, s.generation))
  {
    hide AllButChain, Registry, Guarded, OneShot, History, Ticked, Minutes;
    Parts(s);
    assert Arm(s, s.generation).armed[s.timersMade] == s.generation;
  }

  lemma Parts(s: State)
    ensures AllButChain(s) <==>
      && Registry(s.jobs, s.parsed, s.records)
      && Guarded(s.records, s.runs, |s.starts|)
      && OneShot(s.jobs, s.records)
      && History(s.records, s.starts)
      && Ticked(s.records, s.frames, s.evaluated, s.starts)
      && Minutes(s.lastTickMinute, s.evaluated)
  {
  }

  function Launched(records: seq<Job>, id: Id): seq<Job>
    requires id < |records|
  {
    records[id := records[id].(running := true, runCount := records[id].runCount + 1)]
  }

  lemma GuardedLaunch(records: seq<Job>, runs: map<nat, Id>, started: nat, id: Id)
    requires Guarded(records, runs, started) && id < |records| && !records[id].running
    ensures Guarded(Launched(records, id), runs[started := id], started + 1)
  {
    var records', runs' := Launched(records, id), runs[started := id];
    forall x | 0 <= x < |records'| && records'[x].running ensures exists r :: r in runs' && runs'[r] == x {
      if x == id {
        assert runs'[started] == id;
      } else {
        var r :| r in runs && runs[r] == x;
        assert runs'[r] == x;
      }
    }
  }

  lemma HistoryLaunch(jobs: map<string, Id>, records: seq<Job>, starts: seq<Start>, id: Id, tick: Option<nat>)
    requires History(records, starts) && OneShot(jobs, records)
    requires id < |records| && !records[id].running && IsRegistered(jobs, records[id].name, id)
    ensures History(Launched(records, id), starts + [Start(id, tick)]) && OneShot(jobs, Launched(records, id))
  {
  }

  lemma TickedLaunch(records: seq<Job>, frames: map<nat, Frame>, evaluated: seq<Evaluation>, starts: seq<Start>, id: Id, tick: Option<nat>)
    requires Ticked(records, frames, evaluated, starts) && id < |records|
    requires tick.Some? ==>
      && Rightly(records, evaluated, Start(id, tick))
      && (tick.value in frames ==> id !in frames[tick.value].rest)
      && (forall i :: 0 <= i < |starts| && starts[i].tick == tick ==> starts[i].job != id)
    ensures Ticked(Launched(records, id), frames, evaluated, starts + [Start(id, tick)])
  {
    TickedSame(records, Launched(records, id), frames, evaluated, starts);
    hide Launched;
    var starts' := starts + [Start(id, tick)];
    forall i | 0 <= i < |starts'| && starts'[i].tick.Some? ensures Rightly(Launched(records, id), evaluated, starts'[i]) {
      if i < |starts| { assert starts'[i] == starts[i]; } else { RightlySame(records, Launched(records, id), evaluated, starts'[i]); }
    }
    hide Rightly, Ahead;
  }

  /** Updating records, their plans aside, and adding new ones leaves the ticks' history right. */
  ghost predicate SamePlans(records: seq<Job>, records': seq<Job>) {
    |records| <= |records'| && forall i :: 0 <= i < |records| ==> records'[i].plan == records[i].plan
  }

  lemma RightlySame(records: seq<Job>, records': seq<Job>, evaluated: seq<Evaluation>, start: Start)
    requires start.tick.Some? && Rightly(records, evaluated, start) && SamePlans(records, records')
    ensures Rightly(records', evaluated, start)
  {
  }

  lemma TickedSame(records: seq<Job>, records': seq<Job>, frames: map<nat, Frame>, evaluated: seq<Evaluation>, starts: seq<Start>)
    requires Ticked(records, frames, evaluated, starts) && SamePlans(records, records')
    ensures Ticked(records', frames, evaluated, starts)
  {
    hide Ahead, Matches;
  }

  lemma LaunchKeeps(s: State, id: Id, tick: Option<nat>)
    requires Inv(s) && id < |s.records| && !s.records[id].running && IsRegistered(s.jobs, s.records[id].name, id)
    requires tick.Some? ==>
      && Rightly(s.records, s.evaluated, Start(id, tick))
      && (tick.value in s.frames ==> id !in s.frames[tick.value].rest)
      && (forall i :: 0 <= i < |s.starts| && s.starts[i].tick == tick ==> s.starts[i].job != id)
    ensures Inv(Launch(s, id, tick))
  {
    hide OneChain, Registry, Guarded, OneShot, History, Ticked, Minutes, Rightly;
    GuardedLaunch(s.records, s.runs, |s.starts|, id);
    HistoryLaunch(s.jobs, s.records, s.starts, id, tick);
    TickedLaunch(s.records, s.frames, s.evaluated, s.starts, id, tick);
    RegistrySame(s.jobs, s.parsed, s.records, Launched(s.records, id));
    assert Launch(s, id, tick).records == Launched(s.records, id);
  }

  lemma RegistrySame(jobs: map<string, Id>, parsed: map<string, ParsedSchedule>, records: seq<Job>, records': seq<Job>)
    requires Registry(jobs, parsed, records) && SamePlans(records, records')
    requires forall i :: 0 <= i < |records| ==> records'[i].name == records[i].name
    ensures Registry(jobs, parsed, records')
  {
  }

  // ----- each event -----

  lemma GuardedGrows(records: seq<Job>, runs: map<nat, Id>, started: nat, job: Job)
    requires Guarded(records, runs, started) && !job.running
    ensures Guarded(records + [job], runs, started)
  {
    var records' := records + [job];
    forall x | 0 <= x < |records'| && records'[x].running ensures exists r :: r in runs && runs[r] == x {
      assert records'[x] == records[x];
    }
  }

  lemma AddedIsOneShot(jobs: map<string, Id>, records: seq<Job>, starts: seq<Start>, job: Job)
    requires OneShot(jobs, records) && History(records, starts) && job.runCount == 0 && job.name !in jobs
    ensures OneShot(jobs[job.name := |records|], records + [job]) && History(records + [job], starts)
  {
  }

  lemma AddKeeps(s: State, name: string, schedule: string, once: bool, enabled: bool)
    requires Inv(s)
    ensures Inv(Step(s, Add(name, schedule, once, enabled)))
  {
    hide Parse;
    if name !in s.jobs && Parse(schedule).Accepted? {
      var job := Job(name, Parse(schedule).schedule, once, enabled, false, 0, None);
      GuardedGrows(s.records, s.runs, |s.starts|, job);
      AddedIsOneShot(s.jobs, s.records, s.starts, job);
      TickedSame(s.records, s.records + [job], s.frames, s.evaluated, s.starts);
      assert Registry(s.jobs[name := |s.records|], s.parsed[name := job.plan], s.records + [job]) by {
        hide OneChain, Guarded, OneShot, History, Ticked, Minutes;
      }
    }
    hide OneChain, Registry, Guarded, OneShot, History, Ticked, Minutes;
  }

  lemma RemoveKeeps(s: State, name: string)
    requires Inv(s)
    ensures Inv(Step(s, Remove(name)))
  {
    hide OneChain, Minutes, Guarded, History, Ticked;
  }

  lemma SwitchKeeps(s: State, name: string, on: bool)
    requires Inv(s)
    ensures Inv(Step(s, Switch(name, on)))
  {
    hide Inv;
    if name in s.jobs && s.jobs[name] < |s.records| {
      var id := s.jobs[name];
      UpdateKeeps(s, id, s.records[id].(enabled := on));
    }
  }

  /** Changing what no invariant speaks of: whether a job is enabled, and its last local fire. */
  lemma UpdateKeeps(s: State, id: Id, job: Job)
    requires Inv(s) && id < |s.records|
    requires job == s.records[id].(enabled := job.enabled, lastLocalFire := job.lastLocalFire)
    ensures Inv(Set(s, id, job))
  {
    hide OneChain, Minutes;
    var s' := Set(s, id, job);
    RegistrySame(s.jobs, s.parsed, s.records, s'.records);
    TickedSame(s.records, s'.records, s.frames, s.evaluated, s.starts);
    assert Guarded(s'.records, s'.runs, |s'.starts|) by { hide Registry, OneShot, History, Ticked; }
    assert OneShot(s'.jobs, s'.records) && History(s'.records, s'.starts) by { hide Registry, Guarded, Ticked; }
    hide Registry, Guarded, OneShot, History, Ticked;
  }

  lemma TriggerKeeps(s: State, name: string)
    requires Inv(s)
    ensures Inv(Step(s, Trigger(name)))
  {
    if name in s.jobs && s.jobs[name] < |s.records| && !s.records[s.jobs[name]].running {
      assert s.records[s.jobs[name]].name == name by { hide OneChain, Guarded, OneShot, History, Ticked, Minutes; }
      LaunchKeeps(s, s.jobs[name], None);
    }
    hide Inv;
  }

  lemma BeginKeeps(s: State)
    requires Inv(s)
    ensures Inv(Step(s, Begin))
  {
    hide Registry, Guarded, OneShot, History, Ticked, Minutes;
    if !s.active {
      assert s.armed == map[];
      ArmKeeps(s.(active := true, generation := s.generation + 1));
    }
  }

  lemma StopKeeps(s: State)
    requires Inv(s)
    ensures Inv(Step(s, Stop))
  {
    hide Registry, Guarded, OneShot, History, Ticked, Minutes;
    assert Step(s, Stop).armed == map[];
  }

  /** The tick's own part: the clock guard, the snapshot and the history. */
  lemma NewTickKeeps(s: State, at: Moment, chain: Option<nat>)
    requires AllButChain(s) && LetsThrough(s.lastTickMinute, at.minute)
    ensures AllButChain(Evaluate(s, at, chain))
  {
    var s' := Evaluate(s, at, chain);
    SnapshotIsAhead(s.jobs, s.records, |s.records|);
    assert Ticked(s'.records, s'.frames, s'.evaluated, s'.starts) by {
      hide Ahead, Guarded, OneShot, History, Minutes, Registry;
      forall i | 0 <= i < |s.starts| && s.starts[i].tick.Some? ensures Rightly(s.records, s'.evaluated, s.starts[i]) {
        assert Rightly(s.records, s.evaluated, s.starts[i]);
      }
    }
    assert Minutes(s'.lastTickMinute, s'.evaluated);
    hide Registry, Guarded, OneShot, History, Ticked, Minutes;
  }

  lemma TickKeeps(s: State, at: Moment)
    requires Inv(s)
    ensures Inv(Step(s, Tick(at)))
  {
    hide Registry, Guarded, OneShot, History, Minutes, Ticked, OneChain;
    if LetsThrough(s.lastTickMinute, at.minute) {
      NewTickKeeps(s, at, None);
      UntimedFrame(s, at);
    }
  }

  lemma UntimedFrame(s: State, at: Moment)
    requires Inv(s) && LetsThrough(s.lastTickMinute, at.minute)
    ensures var s' := Evaluate(s, at, None); OneChain(s'.active, s'.generation, s'.timer, s'.armed, s'.timersMade, s'.frames)
  {
    hide Registry, Guarded, OneShot, History, Minutes;
    var s' := Evaluate(s, at, None);
    assert |s.evaluated| !in s.frames;
    if s.active && s.armed == map[] {
      var f :| f in s.frames && s.frames[f].chain == Some(s.generation);
      assert s'.frames[f] == s.frames[f];
    }
  }

  lemma FireKeeps(s: State, timer: nat, at: Moment)
    requires Inv(s) && timer in s.armed
    ensures Inv(Step(s, Fire(timer, at)))
  {
    hide Registry, Guarded, OneShot, History, Ticked, Minutes;
    var fired := s.(armed := s.armed - {timer});
    assert fired.armed == map[] && NoChain(s.generation, s.frames);
    if LetsThrough(s.lastTickMinute, at.minute) {
      NewTickKeeps(fired, at, Some(s.generation));
      var s' := Evaluate(fired, at, Some(s.generation));
      assert s'.frames[|s.evaluated|].chain == Some(s.generation);
    } else {
      ArmKeeps(fired);
    }
  }

  lemma EndTickKeeps(s: State, f: nat)
    requires Inv(s) && Enabled(s, EndTick(f))
    ensures Inv(Step(s, EndTick(f)))
  {
    hide Registry, Guarded, OneShot, History, Minutes;
    var done := s.(frames := s.frames - {f});
    assert Ticked(done.records, done.frames, done.evaluated, done.starts) by { hide Ahead, Rightly; }
    hide Ticked;
    if s.frames[f].chain == Some(s.generation) {
      ArmKeeps(done);
    } else if s.active && s.armed == map[] {
      var g :| g in s.frames && s.frames[g].chain == Some(s.generation);
      assert g in done.frames && done.frames[g] == s.frames[g];
    }
  }

  lemma VisitKeeps(s: State, f: nat)
    requires Inv(s) && Enabled(s, Visit(f))
    ensures Inv(Step(s, Visit(f)))
  {
    hide Inv, Look;
    var id := s.frames[f].rest[0];
    var moved := s.(frames := s.frames[f := s.frames[f].(rest := s.frames[f].rest[1..])]);
    MovedKeeps(s, f);
    LookKeeps(moved, id, f);
  }

  lemma MovedTicked(records: seq<Job>, frames: map<nat, Frame>, evaluated: seq<Evaluation>, starts: seq<Start>, f: nat)
    requires Ticked(records, frames, evaluated, starts) && f in frames && frames[f].rest != []
    ensures Ticked(records, frames[f := frames[f].(rest := frames[f].rest[1..])], evaluated, starts)
    ensures var id := frames[f].rest[0];
      && f < |evaluated| && id < evaluated[f].known && id !in frames[f].rest[1..]
      && forall i :: 0 <= i < |starts| && starts[i].tick == Some(f) ==> starts[i].job != id
  {
    hide Rightly;
  }

  lemma MovedKeeps(s: State, f: nat)
    requires Inv(s) && Enabled(s, Visit(f))
    ensures var moved := s.(frames := s.frames[f := s.frames[f].(rest := s.frames[f].rest[1..])]);
      Inv(moved) && Unvisited(moved, s.frames[f].rest[0], f)
  {
    hide Registry, Guarded, OneShot, History, Minutes, Ticked;
    var moved := s.(frames := s.frames[f := s.frames[f].(rest := s.frames[f].rest[1..])]);
    MovedTicked(s.records, s.frames, s.evaluated, s.starts, f);
    if s.active && s.armed == map[] {
      var g :| g in s.frames && s.frames[g].chain == Some(s.generation);
      assert moved.frames[g].chain == s.frames[g].chain;
    }
  }

  /** The tick has not looked at the job yet, and knew it when it began. */
  ghost predicate Unvisited(s: State, id: Id, f: nat) {
    && f in s.frames && f < |s.evaluated| && id < s.evaluated[f].known && id < |s.records|
    && id !in s.frames[f].rest
    && forall i :: 0 <= i < |s.starts| && s.starts[i].tick == Some(f) ==> s.starts[i].job != id
  }

  lemma LookKeeps(s: State, id: Id, f: nat)
    requires Inv(s) && Unvisited(s, id, f)
    ensures Inv(Look(s, id, f, s.evaluated[f].at))
  {
    hide Launch, Matches, OneChain, Guarded, OneShot, History, Ticked, Minutes;
    var at := s.evaluated[f].at;
    var job := s.records[id];
    if Look(s, id, f, at) != s {
      PlanIs(s, id);
      hide Inv, Registry;
      var stamped := if s.parsed[job.name].fixedTime then Set(s, id, job.(lastLocalFire := Some(KeyOf(at)))) else s;
      if s.parsed[job.name].fixedTime { UpdateKeeps(s, id, job.(lastLocalFire := Some(KeyOf(at)))); }
      assert Rightly(stamped.records, stamped.evaluated, Start(id, Some(f)));
      LaunchKeeps(stamped, id, Some(f));
    }
  }

  lemma PlanIs(s: State, id: Id)
    requires Inv(s) && id < |s.records| && IsRegistered(s.jobs, s.records[id].name, id)
    ensures s.records[id].name in s.parsed && s.parsed[s.records[id].name] == s.records[id].plan
  {
    hide OneChain, Guarded, OneShot, History, Ticked, Minutes;
  }

  function Released(records: seq<Job>, id: Id): seq<Job>
    requires id < |records|
  {
    records[id := records[id].(running := false)]
  }

  lemma GuardedRelease(records: seq<Job>, runs: map<nat, Id>, started: nat, run: nat)
    requires Guarded(records, runs, started) && run in runs
    ensures Guarded(Released(records, runs[run]), runs - {run}, started)
  {
    var records', runs' := Released(records, runs[run]), runs - {run};
    forall x | 0 <= x < |records'| && records'[x].running ensures exists r :: r in runs' && runs'[r] == x {
      var r :| r in runs && runs[r] == x;
      assert runs'[r] == x;
    }
  }

  lemma OneShotRelease(jobs: map<string, Id>, records: seq<Job>, starts: seq<Start>, id: Id)
    requires OneShot(jobs, records) && History(records, starts) && id < |records|
    ensures History(Released(records, id), starts)
    ensures !records[id].once || !IsRegistered(jobs, records[id].name, id) ==> OneShot(jobs, Released(records, id))
    ensures OneShot(jobs - {records[id].name}, Released(records, id))
  {
  }

  lemma CompleteKeeps(s: State, run: nat)
    requires Inv(s) && Enabled(s, Complete(run))
    ensures Inv(Step(s, Complete(run)))
  {
    hide OneChain, Registry, Guarded, OneShot, History, Ticked, Minutes;
    var id := s.runs[run];
    GuardedRelease(s.records, s.runs, |s.starts|, run);
    OneShotRelease(s.jobs, s.records, s.starts, id);
    TickedSame(s.records, Released(s.records, id), s.frames, s.evaluated, s.starts);
    RegistrySame(s.jobs, s.parsed, s.records, Released(s.records, id));
    RegistryDrop(s.jobs, s.parsed, Released(s.records, id), s.records[id].name);
  }

  lemma RegistryDrop(jobs: map<string, Id>, parsed: map<string, ParsedSchedule>, records: seq<Job>, name: string)
    requires Registry(jobs, parsed, records)
    ensures Registry(jobs - {name}, parsed - {name}, records)
  {
  }

  lemma StepKeeps(s: State, e: Event)
    requires Inv(s) && Enabled(s, e)
    ensures Inv(Step(s, e))
  {
    hide Inv, Step;
    match e
    case Add(name, schedule, once, enabled) => AddKeeps(s, name, schedule, once, enabled);
    case Remove(name) => RemoveKeeps(s, name);
    case Switch(name, on) => SwitchKeeps(s, name, on);
    case Trigger(name) => TriggerKeeps(s, name);
    case Begin => BeginKeeps(s);
    case Stop => StopKeeps(s);
    case Tick(at) => TickKeeps(s, at);
    case Fire(timer, at) => FireKeeps(s, timer, at);
    case Visit(f) => VisitKeeps(s, f);
    case EndTick(f) => EndTickKeeps(s, f);
    case Complete(run) => CompleteKeeps(s, run);
  }

  // ----- results -----

  ghost predicate Reached(s: State) {
    exists es :: CanRun(Fresh, es) && s == Run(Fresh, es)
  }

  lemma {:induction false} RunKeeps(s: State, es: seq<Event>)
    requires Inv(s) && CanRun(s, es)
    ensures Inv(Run(s, es))
    decreases |es|
  {
    hide Inv, Step, Enabled;
    if es != [] {
      StepKeeps(s, es[0]);
      RunKeeps(Step(s, es[0]), es[1..]);
    }
  }

  lemma ReachedIsGood(s: State)
    requires Reached(s)
    ensures Inv(s)
  {
    hide Inv, CanRun, Run;
    FreshIsGood();
    var es :| CanRun(Fresh, es) && s == Run(Fresh, es);
    RunKeeps(Fresh, es);
  }

  lemma FreshIsGood()
    ensures Inv(Fresh)
  {
  }

  /** However start, stop and ticks interleave, at most one timer is ever armed, and it is of the current generation.
      While the ticker is active exactly one chain is alive: a timer, or the tick that timer started; once it is
      stopped there is none. */
  lemma OneTimerAtMost(s: State)
    requires Reached(s)
    ensures |s.armed| <= 1 && forall t :: t in s.armed ==> s.armed[t] == s.generation && s.timer == Some(t)
    ensures var ticking := set f | f in s.frames && s.frames[f].chain == Some(s.generation);
      |s.armed| + |ticking| == if s.active then 1 else 0
  {
    hide Registry, Guarded, OneShot, History, Ticked, Minutes;
    ReachedIsGood(s);
    var ticking := set f | f in s.frames && s.frames[f].chain == Some(s.generation);
    if s.armed != map[] {
      var t :| t in s.armed;
      assert s.armed.Keys == {t} && |s.armed| == |s.armed.Keys|;
      assert ticking == {};
    } else if s.active {
      var f :| f in s.frames && s.frames[f].chain == Some(s.generation);
      assert ticking == {f};
    } else {
      assert ticking == {};
    }
  }

  /** A registration never has two runs in flight, and its guard is up exactly while it has one. */
  lemma NeverOverlaps(s: State, id: Id)
    requires Reached(s) && id < |s.records|
    ensures var inFlight := set r | r in s.runs && s.runs[r] == id;
      |inFlight| == if s.records[id].running then 1 else 0
  {
    hide OneChain, Registry, OneShot, History, Ticked, Minutes;
    ReachedIsGood(s);
    var inFlight := set r | r in s.runs && s.runs[r] == id;
    if s.records[id].running {
      var r :| r in s.runs && s.runs[r] == id;
      assert inFlight == {r};
    } else {
      assert inFlight == {};
    }
  }

  /** A one-shot registration starts at most once, by tick or by trigger. */
  lemma OnceStartsOnce(s: State, i: nat, j: nat)
    requires Reached(s) && i < j < |s.starts| && s.starts[i].job == s.starts[j].job
    ensures s.starts[i].job < |s.records| && !s.records[s.starts[i].job].once
  {
    hide OneChain, Registry, Guarded, OneShot, Ticked, Minutes;
    ReachedIsGood(s);
  }

  /** A job leaves the registry only by `remove`, or because a one-shot run of that very registration ended: the end
      of a stale run never removes a job added later under its name. */
  lemma OnlyItsOwnRunRemoves(s: State, e: Event, name: string)
    requires Reached(s) && Enabled(s, e) && name in s.jobs
    requires !IsRegistered(Step(s, e).jobs, name, s.jobs[name])
    ensures e == Remove(name) || (e.Complete? && s.runs[e.run] == s.jobs[name] && s.records[s.jobs[name]].once)
  {
    ReachedIsGood(s);
    assert s.records[s.jobs[name]].name == name by { hide OneChain, Guarded, OneShot, History, Ticked, Minutes; }
    JobsStay(s, e);
    hide Inv, Step;
  }

  lemma JobsStay(s: State, e: Event)
    requires Enabled(s, e)
    ensures match e
      case Add(name, schedule, once, enabled) => Step(s, e).jobs == s.jobs || (name !in s.jobs && Step(s, e).jobs == s.jobs[name := |s.records|])
      case Remove(name) => Step(s, e).jobs == s.jobs - {name}
      case Complete(run) => Step(s, e).jobs == s.jobs || (s.records[s.runs[run]].once && IsRegistered(s.jobs, s.records[s.runs[run]].name, s.runs[run]) && Step(s, e).jobs == s.jobs - {s.records[s.runs[run]].name})
      case _ => Step(s, e).jobs == s.jobs
  {
    hide Parse, Matches, LetsThrough, Arm, Evaluate;
    if e.Fire? || e.Tick? || e.Begin? || e.EndTick? { ArmTouchesNoJob(s, e); }
    else if e.Remove? { assert e.name !in s.jobs ==> s.jobs - {e.name} == s.jobs; }
  }

  lemma ArmTouchesNoJob(s: State, e: Event)
    requires Enabled(s, e) && (e.Fire? || e.Tick? || e.Begin? || e.EndTick?)
    ensures Step(s, e).jobs == s.jobs
  {
    hide Snapshot, LetsThrough;
  }

  /** A run started by a tick is of a job that was registered before the tick began, and whose schedule matches the
      minute; and no tick starts one job twice. */
  lemma TicksStartWhatIsDue(s: State, i: nat)
    requires Reached(s) && i < |s.starts| && s.starts[i].tick.Some?
    ensures var Start(id, tick) := s.starts[i];
      && tick.value < |s.evaluated| && id < s.evaluated[tick.value].known <= |s.records|
      && Matches(s.records[id].plan, s.evaluated[tick.value].at.date)
      && forall j :: 0 <= j < |s.starts| && j != i && s.starts[j].job == id ==> s.starts[j].tick != tick
  {
    hide OneChain, Registry, Guarded, OneShot, History, Minutes, Matches;
    ReachedIsGood(s);
    assert Rightly(s.records, s.evaluated, s.starts[i]);
    forall j | 0 <= j < |s.starts| && j != i && s.starts[j].job == s.starts[i].job ensures s.starts[j].tick != s.starts[i].tick {
      if j < i && s.starts[j].tick.Some? { assert s.starts[j].tick != s.starts[i].tick; }
    }
  }

  /** The clock was set back between evaluations `i - 1` and `i`. */
  predicate SetBack(evaluated: seq<Evaluation>, i: nat)
    requires 0 < i < |evaluated|
  {
    evaluated[i].at.minute < evaluated[i - 1].at.minute - CLOCK_JITTER_MINUTES
  }

  /** Evaluated minutes strictly increase over every stretch in which no tick falls more than two minutes below the
      last one, so no minute is evaluated twice there. */
  lemma MinutesIncrease(s: State, i: nat, j: nat)
    requires Reached(s) && i < j < |s.evaluated|
    requires forall k :: i < k <= j ==> !SetBack(s.evaluated, k)
    ensures s.evaluated[i].at.minute < s.evaluated[j].at.minute
  {
    hide OneChain, Registry, Guarded, OneShot, History, Ticked, Minutes;
    ReachedIsGood(s);
    MinutesRise(s.lastTickMinute, s.evaluated, i, j);
  }

  lemma {:induction false} MinutesRise(last: int, evaluated: seq<Evaluation>, i: nat, j: nat)
    requires Minutes(last, evaluated) && i < j < |evaluated|
    requires forall k :: i < k <= j ==> !SetBack(evaluated, k)
    ensures evaluated[i].at.minute < evaluated[j].at.minute
    decreases j
  {
    assert !SetBack(evaluated, j) && LetsThrough(evaluated[j - 1].at.minute, evaluated[j].at.minute);
    if i < j - 1 { MinutesRise(last, evaluated, i, j - 1); }
  }
}
