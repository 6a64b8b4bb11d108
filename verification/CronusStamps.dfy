/** The local-time guard of fixed-time jobs: what a clock that replays an hour cannot make fire twice in a row. */
module CronusStamps {
  import opened CronText
  import opened CronMatching
  import opened CronusModel
  import opened CronusRuns

  /** The local key a tick last fired the job under. */
  function LastFire(evaluated: seq<Evaluation>, starts: seq<Start>, id: Id): Option<LocalKey> {
    if starts == [] then None
    else
      var last := starts[|starts| - 1];
      if last.job == id && last.tick.Some? && last.tick.value < |evaluated| then Some(KeyOf(evaluated[last.tick.value].at))
      else LastFire(evaluated, starts[..|starts| - 1], id)
  }

  /** The start `j`, if a tick's and of a fixed-time job, is under another key than the job's last one. */
  predicate Moved(records: seq<Job>, evaluated: seq<Evaluation>, starts: seq<Start>, j: nat)
    requires j < |starts|
  {
    var Start(id, tick) := starts[j];
    tick.Some? && tick.value < |evaluated| && id < |records| && records[id].plan.fixedTime ==>
      LastFire(evaluated, starts[..j], id) != Some(KeyOf(evaluated[tick.value].at))
  }

  /** A fixed-time record is stamped with its last fire, and no two fires in a row bear one stamp. */
  ghost predicate Stamped(records: seq<Job>, evaluated: seq<Evaluation>, starts: seq<Start>) {
    && (forall id :: 0 <= id < |records| && records[id].plan.fixedTime ==>
          records[id].lastLocalFire == LastFire(evaluated, starts, id))
    && (forall j :: 0 <= j < |starts| ==> Moved(records, evaluated, starts, j))
  }

  // ----- what does not matter to it -----

  ghost predicate SameStamps(records: seq<Job>, records': seq<Job>) {
    |records'| == |records| &&
    forall i :: 0 <= i < |records| ==> records'[i].plan == records[i].plan && records'[i].lastLocalFire == records[i].lastLocalFire
  }

  lemma RecordsMayChange(records: seq<Job>, records': seq<Job>, evaluated: seq<Evaluation>, starts: seq<Start>)
    requires Stamped(records, evaluated, starts) && SameStamps(records, records')
    ensures Stamped(records', evaluated, starts)
  {
    forall j | 0 <= j < |starts| ensures Moved(records', evaluated, starts, j) {
      assert Moved(records, evaluated, starts, j);
      var id := starts[j].job;
      assert id < |records| ==> records'[id].plan == records[id].plan;
    }
  }

  lemma {:induction false} NeverStarted(evaluated: seq<Evaluation>, starts: seq<Start>, id: Id)
    requires forall i :: 0 <= i < |starts| ==> starts[i].job != id
    ensures LastFire(evaluated, starts, id) == None
  {
    if starts != [] { NeverStarted(evaluated, starts[..|starts| - 1], id); }
  }

  lemma {:induction false} OnlyTheirOwnTicks(evaluated: seq<Evaluation>, more: Evaluation, starts: seq<Start>, id: Id)
    requires forall i :: 0 <= i < |starts| && starts[i].tick.Some? ==> starts[i].tick.value < |evaluated|
    ensures LastFire(evaluated + [more], starts, id) == LastFire(evaluated, starts, id)
  {
    if starts != [] { OnlyTheirOwnTicks(evaluated, more, starts[..|starts| - 1], id); }
  }

  lemma NewTick(records: seq<Job>, evaluated: seq<Evaluation>, more: Evaluation, starts: seq<Start>)
    requires Stamped(records, evaluated, starts)
    requires forall i :: 0 <= i < |starts| && starts[i].tick.Some? ==> starts[i].tick.value < |evaluated|
    ensures Stamped(records, evaluated + [more], starts)
  {
    forall id: Id ensures LastFire(evaluated + [more], starts, id) == LastFire(evaluated, starts, id) {
      OnlyTheirOwnTicks(evaluated, more, starts, id);
    }
    forall j | 0 <= j < |starts| ensures Moved(records, evaluated + [more], starts, j) {
      OnlyTheirOwnTicks(evaluated, more, starts[..j], starts[j].job);
      assert Moved(records, evaluated, starts, j);
    }
  }

  lemma NewRecord(records: seq<Job>, job: Job, evaluated: seq<Evaluation>, starts: seq<Start>)
    requires Stamped(records, evaluated, starts) && History(records, starts) && job.lastLocalFire == None
    ensures Stamped(records + [job], evaluated, starts)
  {
    NeverStarted(evaluated, starts, |records|);
    forall j | 0 <= j < |starts| ensures Moved(records + [job], evaluated, starts, j) {
      assert Moved(records, evaluated, starts, j);
    }
  }

  /** A start by hand stamps nothing; one by a tick stamps the job with the tick's local key. */
  lemma NewStart(records: seq<Job>, records': seq<Job>, evaluated: seq<Evaluation>, starts: seq<Start>, id: Id, tick: Option<nat>)
    requires Stamped(records, evaluated, starts) && id < |records| == |records'|
    requires forall i :: 0 <= i < |records| ==>
      records'[i].plan == records[i].plan && (i != id ==> records'[i].lastLocalFire == records[i].lastLocalFire)
    requires tick.Some? ==> tick.value < |evaluated|
    requires records[id].plan.fixedTime ==>
      records'[id].lastLocalFire == (if tick.Some? then Some(KeyOf(evaluated[tick.value].at)) else records[id].lastLocalFire)
    requires records[id].plan.fixedTime && tick.Some? ==> records[id].lastLocalFire != Some(KeyOf(evaluated[tick.value].at))
    ensures Stamped(records', evaluated, starts + [Start(id, tick)])
  {
    var starts' := starts + [Start(id, tick)];
    assert starts'[..|starts|] == starts;
    forall j | 0 <= j < |starts'| ensures Moved(records', evaluated, starts', j) {
      if j < |starts| {
        assert starts'[..j] == starts[..j] && starts'[j] == starts[j];
        assert Moved(records, evaluated, starts, j);
        assert starts[j].job < |records| ==> records'[starts[j].job].plan == records[starts[j].job].plan;
      }
    }
  }

  // ----- every step -----

  lemma StepStamps(s: State, e: Event)
    requires Inv(s) && Stamped(s.records, s.evaluated, s.starts) && Enabled(s, e)
    ensures var s' := Step(s, e); Stamped(s'.records, s'.evaluated, s'.starts)
  {
    hide Stamped, Inv;
    match e
    case Add(name, schedule, once, enabled) => AddStamps(s, name, schedule, once, enabled);
    case Remove(name) =>
    case Switch(name, on) => OtherFieldsMayChange(s, e);
    case Trigger(name) => TriggerStamps(s, name);
    case Begin =>
    case Stop =>
    case Tick(at) => TickStamps(s, at);
    case Fire(timer, at) => FireStamps(s, timer, at);
    case Visit(f) => VisitStamps(s, f);
    case EndTick(f) =>
    case Complete(run) => OtherFieldsMayChange(s, e);
    hide Added, Triggered, Evaluate, Fired, Visited, Settle, Switched;
  }

  lemma OtherFieldsMayChange(s: State, e: Event)
    requires Stamped(s.records, s.evaluated, s.starts) && Enabled(s, e) && (e.Switch? || e.Complete?)
    ensures var s' := Step(s, e); Stamped(s'.records, s'.evaluated, s'.starts)
  {
    hide Stamped;
    RecordsMayChange(s.records, Step(s, e).records, s.evaluated, s.starts);
  }

  lemma AddStamps(s: State, name: string, schedule: string, once: bool, enabled: bool)
    requires Inv(s) && Stamped(s.records, s.evaluated, s.starts)
    ensures var s' := Added(s, name, schedule, once, enabled); Stamped(s'.records, s'.evaluated, s'.starts)
  {
    hide Stamped, Parse, OneChain, Registry, Guarded, OneShot, Ticked, Minutes;
    if name !in s.jobs && Parse(schedule).Accepted? {
      NewRecord(s.records, Job(name, Parse(schedule).schedule, once, enabled, false, 0, None), s.evaluated, s.starts);
    }
  }

  lemma TriggerStamps(s: State, name: string)
    requires Stamped(s.records, s.evaluated, s.starts)
    ensures var s' := Triggered(s, name); Stamped(s'.records, s'.evaluated, s'.starts)
  {
    hide Stamped;
    var s' := Triggered(s, name);
    if s' != s { NewStart(s.records, s'.records, s.evaluated, s.starts, s.jobs[name], None); }
  }

  lemma EvaluateStamps(s: State, at: Moment, chain: Option<nat>)
    requires Ticked(s.records, s.frames, s.evaluated, s.starts) && Stamped(s.records, s.evaluated, s.starts)
    ensures var s' := Evaluate(s, at, chain); Stamped(s'.records, s'.evaluated, s'.starts)
  {
    hide Stamped, Ahead, Snapshot, LetsThrough;
    if LetsThrough(s.lastTickMinute, at.minute) {
      assert forall i :: 0 <= i < |s.starts| && s.starts[i].tick.Some? ==> Rightly(s.records, s.evaluated, s.starts[i]);
      NewTick(s.records, s.evaluated, Evaluation(at, |s.records|), s.starts);
    }
  }

  lemma TickStamps(s: State, at: Moment)
    requires Inv(s) && Stamped(s.records, s.evaluated, s.starts)
    ensures var s' := Evaluate(s, at, None); Stamped(s'.records, s'.evaluated, s'.starts)
  {
    hide Stamped, Evaluate, OneChain, Registry, Guarded, OneShot, History, Ticked, Minutes;
    EvaluateStamps(s, at, None);
  }

  lemma FireStamps(s: State, timer: nat, at: Moment)
    requires Inv(s) && Stamped(s.records, s.evaluated, s.starts) && timer in s.armed
    ensures var s' := Fired(s, timer, at); Stamped(s'.records, s'.evaluated, s'.starts)
  {
    hide Stamped, Evaluate, OneChain, Registry, Guarded, OneShot, History, Ticked, Minutes;
    EvaluateStamps(s.(armed := s.armed - {timer}), at, Some(s.armed[timer]));
  }

  lemma VisitStamps(s: State, f: nat)
    requires Inv(s) && Stamped(s.records, s.evaluated, s.starts) && Enabled(s, Visit(f))
    ensures var s' := Visited(s, f); Stamped(s'.records, s'.evaluated, s'.starts)
  {
    hide Stamped, Inv, Look;
    MovedKeeps(s, f);
    LookStamps(s.(frames := s.frames[f := s.frames[f].(rest := s.frames[f].rest[1..])]), s.frames[f].rest[0], f);
  }

  lemma LookStamps(s: State, id: Id, f: nat)
    requires Inv(s) && Stamped(s.records, s.evaluated, s.starts) && id < |s.records| && f < |s.evaluated|
    ensures var s' := Look(s, id, f, s.evaluated[f].at); Stamped(s'.records, s'.evaluated, s'.starts)
  {
    hide Stamped, Inv, Matches;
    var s' := Look(s, id, f, s.evaluated[f].at);
    if s' != s {
      PlanIs(s, id);
      NewStart(s.records, s'.records, s.evaluated, s.starts, id, Some(f));
    }
  }

  // ----- result -----

  lemma {:induction false} RunStamps(s: State, es: seq<Event>)
    requires Inv(s) && Stamped(s.records, s.evaluated, s.starts) && CanRun(s, es)
    ensures var s' := Run(s, es); Stamped(s'.records, s'.evaluated, s'.starts)
    decreases |es|
  {
    hide Inv, Stamped, Step, Enabled;
    if es != [] {
      StepKeeps(s, es[0]);
      StepStamps(s, es[0]);
      RunStamps(Step(s, es[0]), es[1..]);
    }
  }

  /** Two ticks that start one fixed-time job, with none that starts it between them, fall in different local minutes: a
      clock set back over the job's time does not fire it again. */
  lemma NoReplay(s: State, i: nat, j: nat)
    requires Reached(s) && i < j < |s.starts| && s.starts[i].tick.Some? && s.starts[j].tick.Some?
    requires s.starts[i].job == s.starts[j].job < |s.records| && s.records[s.starts[j].job].plan.fixedTime
    requires forall k :: i < k < j && s.starts[k].job == s.starts[j].job ==> s.starts[k].tick.None?
    ensures s.starts[i].tick.value < |s.evaluated| && s.starts[j].tick.value < |s.evaluated|
    ensures KeyOf(s.evaluated[s.starts[i].tick.value].at) != KeyOf(s.evaluated[s.starts[j].tick.value].at)
  {
    hide Inv, Reached, Matches;
    TicksStartWhatIsDue(s, i);
    TicksStartWhatIsDue(s, j);
    ReachedIsStamped(s);
    assert Moved(s.records, s.evaluated, s.starts, j);
    LastFireIs(s.evaluated, s.starts[..j], i);
  }

  lemma ReachedIsStamped(s: State)
    requires Reached(s)
    ensures Stamped(s.records, s.evaluated, s.starts)
  {
    hide Inv, CanRun, Run;
    FreshIsGood();
    var es :| CanRun(Fresh, es) && s == Run(Fresh, es);
    RunStamps(Fresh, es);
  }

  lemma {:induction false} LastFireIs(evaluated: seq<Evaluation>, starts: seq<Start>, i: nat)
    requires i < |starts| && starts[i].tick.Some? && starts[i].tick.value < |evaluated|
    requires forall k :: i < k < |starts| && starts[k].job == starts[i].job ==> starts[k].tick.None?
    ensures LastFire(evaluated, starts, starts[i].job) == Some(KeyOf(evaluated[starts[i].tick.value].at))
    decreases |starts|
  {
    if i < |starts| - 1 { LastFireIs(evaluated, starts[..|starts| - 1], i); }
  }
}
