/** What each event does to the scheduler once it runs: what starts and what does not, what a tick goes through, and what is
    armed, registered and guarded afterwards. Nothing but what is said changes. */
module CronusEffects {
  import opened CronText
  import opened CronMatching
  import opened CronusModel
  import opened CronusRuns
  import opened CronusStamps

  /** The registry has this very record under its name. */
  predicate Listed(s: State, id: Id) {
    id < |s.records| && s.records[id].name in s.jobs && s.jobs[s.records[id].name] == id
  }

  /** One local minute of one day of one year. */
  lemma OneKeyOneMinute(a: Moment, b: Moment)
    ensures KeyOf(a) == KeyOf(b) <==>
      && a.year == b.year && a.date.month == b.date.month && a.date.date == b.date.date
      && a.date.hours == b.date.hours && a.date.minutes == b.date.minutes
  {
  }

  /** What the tick `f` must find to start a job: it is still registered, enabled, idle, its schedule has the tick's minute,
      and, at a fixed time, the last tick that started it did so under another local minute. */
  predicate DueIn(s: State, id: Id, f: nat) {
    && Listed(s, id) && s.records[id].enabled && !s.records[id].running
    && f < |s.evaluated| && Matches(s.records[id].plan, s.evaluated[f].at.date)
    && (s.records[id].plan.fixedTime ==> LastFire(s.evaluated, s.starts, id) != Some(KeyOf(s.evaluated[f].at)))
  }

  /** The job has one more run, in flight under its guard; a fixed-time job bears the minute of the tick that started it. */
  function WithRun(s: State, id: Id, tick: Option<nat>): (s': State)
    requires id < |s.records| && (tick.Some? ==> tick.value < |s.evaluated|)
    ensures s'.starts == s.starts + [Start(id, tick)]
  {
    var job := s.records[id];
    var stamp := if tick.Some? && job.plan.fixedTime then Some(KeyOf(s.evaluated[tick.value].at)) else job.lastLocalFire;
    s.(records := s.records[id := job.(running := true, runCount := job.runCount + 1, lastLocalFire := stamp)],
       runs := s.runs[|s.starts| := id], starts := s.starts + [Start(id, tick)])
  }

  /** A new timer is armed for the current generation, and is the only one. */
  function WithTimer(s: State): State {
    s.(armed := map[s.timersMade := s.generation], timer := Some(s.timersMade), timersMade := s.timersMade + 1)
  }

  lemma LaunchIsWithRun(s: State, id: Id, tick: Option<nat>)
    requires id < |s.records| && (tick.Some? ==> tick.value < |s.evaluated|)
    ensures !(tick.Some? && s.records[id].plan.fixedTime) ==> Launch(s, id, tick) == WithRun(s, id, tick)
    ensures tick.Some? && s.records[id].plan.fixedTime ==>
      var stamped := Set(s, id, s.records[id].(lastLocalFire := Some(KeyOf(s.evaluated[tick.value].at))));
      Launch(stamped, id, tick) == WithRun(s, id, tick)
  {
    hide KeyOf;
    var job := s.records[id];
    assert s.records[id := job] == s.records;
    if tick.Some? && job.plan.fixedTime {
      var job' := job.(lastLocalFire := Some(KeyOf(s.evaluated[tick.value].at)));
      assert s.records[id := job'][id := job'.(running := true, runCount := job.runCount + 1)]
          == s.records[id := job'.(running := true, runCount := job.runCount + 1)];
    }
  }

  // ----- a tick's loop -----

  /** A tick starts the next job of its snapshot if and only if that is due; otherwise it only moves on. */
  lemma VisitStartsWhatIsDue(s: State, f: nat)
    requires Reached(s) && Enabled(s, Visit(f))
    ensures var id := s.frames[f].rest[0];
      var moved := s.(frames := s.frames[f := Frame(s.frames[f].rest[1..], s.frames[f].chain)]);
      Step(s, Visit(f)) == if DueIn(s, id, f) then WithRun(moved, id, Some(f)) else moved
  {
    hide Inv, Reached, Stamped, Look;
    ReachedIsGood(s);
    ReachedIsStamped(s);
    var id := s.frames[f].rest[0];
    var moved := s.(frames := s.frames[f := Frame(s.frames[f].rest[1..], s.frames[f].chain)]);
    assert moved == s.(frames := s.frames[f := s.frames[f].(rest := s.frames[f].rest[1..])]);
    MovedKeeps(s, f);
    LookStartsWhatIsDue(moved, id, f);
    assert DueIn(moved, id, f) == DueIn(s, id, f);
  }

  lemma LookStartsWhatIsDue(s: State, id: Id, f: nat)
    requires Inv(s) && Stamped(s.records, s.evaluated, s.starts) && id < |s.records| && f < |s.evaluated|
    ensures Look(s, id, f, s.evaluated[f].at) == if DueIn(s, id, f) then WithRun(s, id, Some(f)) else s
  {
    hide Inv, Matches, KeyOf, LastFire, Launch, WithRun, Moved;
    if Listed(s, id) {
      PlanIs(s, id);
      LaunchIsWithRun(s, id, Some(f));
    }
  }

  /** Nothing that is under way gets stuck: a tick can go on or end, and any run and any timer can come to its end. */
  lemma EverythingCanGoOn(s: State)
    requires Reached(s)
    ensures forall f :: f in s.frames ==> if s.frames[f].rest == [] then Enabled(s, EndTick(f)) else Enabled(s, Visit(f))
    ensures forall r :: r in s.runs ==> Enabled(s, Complete(r))
    ensures forall t, at :: t in s.armed ==> Enabled(s, Fire(t, at))
  {
    hide OneChain, Registry, OneShot, History, Minutes;
    ReachedIsGood(s);
    forall f | f in s.frames && s.frames[f].rest != [] ensures Enabled(s, Visit(f)) {
      assert Ahead(s.frames[f].rest, s.evaluated[f].known);
      assert s.frames[f].rest[0] < s.evaluated[f].known;
    }
  }

  // ----- ticks and the timer -----

  /** Every registered record, in the order they were registered, and no other. */
  ghost predicate ListsAll(s: State, list: seq<Id>) {
    InOrder(list) && forall id: Id :: id in list <==> Listed(s, id)
  }

  predicate InOrder(list: seq<Id>) {
    forall i, j :: 0 <= i < j < |list| ==> list[i] < list[j]
  }

  lemma {:induction false} SnapshotLists(s: State, n: nat)
    requires n <= |s.records|
    ensures var list := Snapshot(s.jobs, s.records, n);
      InOrder(list) && forall id: Id :: id in list <==> id < n && Listed(s, id)
  {
    if n > 0 {
      SnapshotLists(s, n - 1);
      var before := Snapshot(s.jobs, s.records, n - 1);
      assert forall i :: 0 <= i < |before| ==> before[i] in before;
    }
  }

  /** A minute is let through if it is later than the last one evaluated, or more than two minutes earlier. */
  predicate Later(last: int, minute: int) {
    minute > last || minute < last - 2
  }

  /** A new tick, which is to go through all registered jobs. */
  ghost predicate TickBegins(s: State, s': State, at: Moment, chain: Option<nat>) {
    var f := |s.evaluated|;
    && f in s'.frames && s'.frames[f].chain == chain && ListsAll(s, s'.frames[f].rest)
    && s' == s.(lastTickMinute := at.minute, frames := s.frames[f := s'.frames[f]],
                evaluated := s.evaluated + [Evaluation(at, |s.records|)])
  }

  /** A tick driven by hand begins in a later minute, and else does nothing. */
  lemma TickBeginsLater(s: State, at: Moment)
    ensures if Later(s.lastTickMinute, at.minute) then TickBegins(s, Step(s, Tick(at)), at, None) else Step(s, Tick(at)) == s
  {
    hide Evaluate, TickBegins;
    EvaluateBegins(s, at, None);
  }

  /** A timer that fires is spent; its tick begins in a later minute, and else the next timer is armed at once. No other timer
      is armed meanwhile. */
  lemma FiringTicks(s: State, timer: nat, at: Moment)
    requires Reached(s) && timer in s.armed
    ensures var spent := s.(armed := map[]); var s' := Step(s, Fire(timer, at));
      if Later(s.lastTickMinute, at.minute) then TickBegins(spent, s', at, Some(s.generation)) else s' == WithTimer(spent)
  {
    hide Inv, Reached, Evaluate, TickBegins;
    ReachedIsGood(s);
    ArmedIsTheTimer(s);
    var spent := s.(armed := map[]);
    assert s.armed - {timer} == map[];
    EvaluateBegins(spent, at, Some(s.generation));
  }

  /** The ticker's own timer is the only one armed, and none is while a tick of the current generation is under way. */
  lemma ArmedIsTheTimer(s: State)
    requires Inv(s)
    ensures forall t :: t in s.armed ==> s.armed[t] == s.generation && s.timer == Some(t) && s.active
    ensures s.armed == if s.timer.Some? && s.timer.value in s.armed then map[s.timer.value := s.generation] else map[]
    ensures forall f :: f in s.frames && s.frames[f].chain == Some(s.generation) ==> s.active && s.armed == map[]
    ensures forall f :: f in s.frames && s.frames[f].chain.Some? ==> s.frames[f].chain.value <= s.generation
  {
    hide Registry, Guarded, OneShot, History, Ticked, Minutes;
  }

  lemma EvaluateBegins(s: State, at: Moment, chain: Option<nat>)
    requires chain.Some? ==> s.armed == map[] && s.active && chain.value == s.generation
    ensures if Later(s.lastTickMinute, at.minute) then TickBegins(s, Evaluate(s, at, chain), at, chain)
      else Evaluate(s, at, chain) == if chain.Some? then WithTimer(s) else s
  {
    hide Snapshot, InOrder;
    SnapshotLists(s, |s.records|);
    assert map[][s.timersMade := s.generation] == map[s.timersMade := s.generation];
  }

  /** A tick that is through arms the next timer if a timer of the generation now current began it, and else nothing. */
  lemma TickEndsByArming(s: State, f: nat)
    requires Reached(s) && Enabled(s, EndTick(f))
    ensures var done := s.(frames := s.frames - {f});
      Step(s, EndTick(f)) == if s.active && s.frames[f].chain == Some(s.generation) then WithTimer(done) else done
  {
    hide Inv, Reached;
    ReachedIsGood(s);
    ArmedIsTheTimer(s);
    assert map[s.timersMade := s.generation] == map[][s.timersMade := s.generation];
  }

  /** `start` arms the first timer of a new generation, and does nothing to an active ticker. */
  lemma StartArms(s: State)
    requires Reached(s)
    ensures Step(s, Begin) == if s.active then s else WithTimer(s.(active := true, generation := s.generation + 1))
  {
    hide Inv, Reached;
    ReachedIsGood(s);
    ArmedIsTheTimer(s);
    assert map[][s.timersMade := s.generation + 1] == map[s.timersMade := s.generation + 1];
  }

  /** `stop` leaves no timer armed, and every tick under way with a generation that is past. */
  lemma StopDisarms(s: State)
    requires Reached(s)
    ensures Step(s, Stop) == s.(active := false, generation := s.generation + 1, timer := None, armed := map[])
    ensures forall f :: f in s.frames ==> Step(s, Stop).frames[f].chain != Some(Step(s, Stop).generation)
  {
    hide Inv, Reached;
    ReachedIsGood(s);
    ArmedIsTheTimer(s);
    if s.timer.Some? {
      assert s.armed - {s.timer.value} == map[];
    }
  }

  // ----- registration and runs -----

  /** A free name with a schedule in the language is registered, under a record of its own that has never run. */
  lemma AddRegisters(s: State, name: string, schedule: string, once: bool, enabled: bool)
    requires Reached(s)
    ensures var s' := Step(s, Add(name, schedule, once, enabled)); var id := |s.records|;
      if name !in s.jobs && Parse(schedule).Accepted? then
        && Listed(s', id) && s'.records == s.records + [Job(name, Parse(schedule).schedule, once, enabled, false, 0, None)]
        && (forall other: Id :: other < id ==> Listed(s', other) == Listed(s, other))
        && s' == s.(jobs := s'.jobs, parsed := s'.parsed, records := s'.records)
      else s' == s
  {
    hide OneChain, Guarded, OneShot, History, Ticked, Minutes, Reached, Parse;
    ReachedIsGood(s);
  }

  /** A removed job is not registered any more, and every other one is as before; its runs go on. */
  lemma RemoveUnlists(s: State, name: string)
    requires Reached(s)
    ensures var s' := Step(s, Remove(name));
      && (forall id: Id :: Listed(s', id) <==> Listed(s, id) && s.records[id].name != name)
      && s' == s.(jobs := s'.jobs, parsed := s'.parsed)
  {
    hide OneChain, Guarded, OneShot, History, Ticked, Minutes, Reached;
    ReachedIsGood(s);
  }

  /** `enable` and `disable` set the flag of the registered record, and nothing else. */
  lemma SwitchSetsTheFlag(s: State, name: string, on: bool)
    requires Reached(s)
    ensures var s' := Step(s, Switch(name, on));
      && |s'.records| == |s.records| && s' == s.(records := s'.records)
      && forall id: Id :: id < |s.records| ==>
           s'.records[id] == if Listed(s, id) && s.records[id].name == name then s.records[id].(enabled := on) else s.records[id]
  {
    hide OneChain, Guarded, OneShot, History, Ticked, Minutes, Reached;
    ReachedIsGood(s);
    if name in s.jobs {
      assert Listed(s, s.jobs[name]);
    }
  }

  /** `trigger` starts a registered job, enabled or not and due or not, unless it is running. */
  lemma TriggerStarts(s: State, name: string)
    requires Reached(s)
    ensures if name in s.jobs && s.jobs[name] < |s.records| && !s.records[s.jobs[name]].running
      then Listed(s, s.jobs[name]) && Step(s, Trigger(name)) == WithRun(s, s.jobs[name], None)
      else Step(s, Trigger(name)) == s
  {
    hide OneChain, Guarded, OneShot, History, Ticked, Minutes, Reached, Launch;
    ReachedIsGood(s);
    if name in s.jobs && s.jobs[name] < |s.records| {
      LaunchIsWithRun(s, s.jobs[name], None);
    }
  }

  /** A run that ends lowers its job's guard, and removes the job exactly if that is one-shot and still registered. */
  lemma CompletionLowersTheGuard(s: State, run: nat)
    requires Reached(s) && Enabled(s, Complete(run))
    ensures var s' := Step(s, Complete(run)); var id := s.runs[run];
      && s' == s.(runs := s.runs - {run}, records := s.records[id := s.records[id].(running := false)],
                  jobs := s'.jobs, parsed := s'.parsed)
      && forall other: Id :: Listed(s', other) <==> Listed(s, other) && !(other == id && s.records[id].once)
  {
    hide OneChain, Guarded, OneShot, History, Ticked, Minutes, Reached;
    ReachedIsGood(s);
  }

  /** The schedules a scheduler keeps are those of its registered jobs. */
  lemma PlansAreTheJobs(s: State)
    requires Reached(s)
    ensures s.parsed.Keys == s.jobs.Keys
    ensures forall name :: name in s.jobs ==> s.jobs[name] < |s.records| && s.parsed[name] == s.records[s.jobs[name]].plan
  {
    hide OneChain, Guarded, OneShot, History, Ticked, Minutes, Reached;
    ReachedIsGood(s);
  }
}
