/** When a fixed-time job fires twice in one local minute. It is meant never to; but the last local minute is all it remembers,
    so it does, exactly when it has fired in another one since. */
module CronusReplay {
  import opened CronText
  import opened CronLanguage
  import opened CronMatching
  import opened CronusModel
  import opened CronusRuns
  import opened CronusStamps
  import opened CronusEffects

  /** Start `i` is a tick's, of this job. */
  predicate TickStart(s: State, id: Id, i: nat) {
    i < |s.starts| && s.starts[i].job == id && s.starts[i].tick.Some? && s.starts[i].tick.value < |s.evaluated|
  }

  function KeyAt(s: State, id: Id, i: nat): LocalKey
    requires TickStart(s, id, i)
  {
    KeyOf(s.evaluated[s.starts[i].tick.value].at)
  }

  ghost predicate LastTickStart(s: State, id: Id, i: nat) {
    TickStart(s, id, i) && forall m :: i < m < |s.starts| ==> !TickStart(s, id, m)
  }

  lemma TicksAreEvaluated(s: State, m: nat)
    requires Reached(s) && m < |s.starts| && s.starts[m].tick.Some?
    ensures TickStart(s, s.starts[m].job, m)
  {
    hide Reached;
    TicksStartWhatIsDue(s, m);
  }

  lemma OthersAreByHand(s: State, id: Id, i: nat, j: nat)
    requires Reached(s) && j <= |s.starts| && forall m :: i < m < j ==> !TickStart(s, id, m)
    ensures forall m :: i < m < j && s.starts[m].job == id ==> s.starts[m].tick.None?
  {
    hide Reached;
    forall m | i < m < j && s.starts[m].job == id ensures s.starts[m].tick.None? {
      if s.starts[m].tick.Some? { TicksAreEvaluated(s, m); }
    }
  }

  /** Between two fires in one local minute there is one in another. */
  lemma {:induction false} ReplayNeedsAnother(s: State, id: Id, i: nat, j: nat) returns (k: nat)
    requires Reached(s) && i < j && id < |s.records| && s.records[id].plan.fixedTime
    requires TickStart(s, id, i) && TickStart(s, id, j) && KeyAt(s, id, i) == KeyAt(s, id, j)
    ensures i < k < j && TickStart(s, id, k) && KeyAt(s, id, k) != KeyAt(s, id, i)
    decreases j - i
  {
    hide Reached;
    if m: nat :| i < m < j && TickStart(s, id, m) {
      if KeyAt(s, id, m) == KeyAt(s, id, i) { k := ReplayNeedsAnother(s, id, i, m); } else { k := m; }
    } else {
      OthersAreByHand(s, id, i, j);
      NoReplay(s, i, j);
      assert false;
    }
  }

  /** A fixed-time job that a tick finds registered, enabled, idle and matching, and that some tick has started in this very local
      minute, is started again if and only if the last tick that started it did so in another one. */
  lemma FiresAgainExactlyWhen(s: State, f: nat, i: nat) returns (last: nat)
    requires Reached(s) && Enabled(s, Visit(f))
    requires var id := s.frames[f].rest[0];
      && Listed(s, id) && s.records[id].enabled && !s.records[id].running && s.records[id].plan.fixedTime
      && Matches(s.records[id].plan, s.evaluated[f].at.date)
      && TickStart(s, id, i) && KeyAt(s, id, i) == KeyOf(s.evaluated[f].at)
    ensures var id := s.frames[f].rest[0];
      && i <= last && LastTickStart(s, id, last)
      && Step(s, Visit(f)).starts == if KeyAt(s, id, last) != KeyAt(s, id, i) then s.starts + [Start(id, Some(f))] else s.starts
  {
    hide Reached, Step, Matches, LastFire, KeyOf;
    var id := s.frames[f].rest[0];
    VisitStartsWhatIsDue(s, f);
    last := i;
    while exists m: nat :: last < m && TickStart(s, id, m)
      invariant i <= last && TickStart(s, id, last)
      decreases |s.starts| - last
    {
      var m: nat :| last < m && TickStart(s, id, m);
      last := m;
    }
    OthersAreByHand(s, id, last, |s.starts|);
    LastFireIs(s.evaluated, s.starts, last);
  }

  // ----- a run in which it does -----

  /** A scheduler with one job, at rest after these ticks, each of which has started it. */
  function Resting(plan: ParsedSchedule, ticks: seq<Moment>): State {
    var n := |ticks|;
    State(map["j" := 0], map["j" := plan],
          [Job("j", plan, false, true, false, n, if n == 0 then None else Some(KeyOf(ticks[n - 1])))],
          false, 0, None, if n == 0 then -1 else ticks[n - 1].minute, map[], 0, map[], map[], Evaluations(ticks), Starts(n))
  }

  function Evaluations(ticks: seq<Moment>): seq<Evaluation> {
    seq(|ticks|, i requires 0 <= i < |ticks| => Evaluation(ticks[i], 1))
  }

  function Starts(n: nat): seq<Start> {
    seq(n, i requires 0 <= i < n => Start(0, Some(i)))
  }

  lemma OneMore(ticks: seq<Moment>, at: Moment)
    ensures Evaluations(ticks + [at]) == Evaluations(ticks) + [Evaluation(at, 1)]
    ensures Starts(|ticks| + 1) == Starts(|ticks|) + [Start(0, Some(|ticks|))]
    ensures |Evaluations(ticks)| == |Starts(|ticks|)| == |ticks|
  {
  }

  function Ticking(plan: ParsedSchedule, ticks: seq<Moment>, at: Moment, rest: seq<Id>): State {
    Resting(plan, ticks).(lastTickMinute := at.minute, frames := map[|ticks| := Frame(rest, None)],
                          evaluated := Evaluations(ticks + [at]))
  }

  function Running(plan: ParsedSchedule, ticks: seq<Moment>, at: Moment): State {
    Ticking(plan, ticks, at, []).(records := [Job("j", plan, false, true, true, |ticks| + 1, Some(KeyOf(at)))],
                                  runs := map[|ticks| := 0], starts := Starts(|ticks| + 1))
  }

  lemma TickGoes(plan: ParsedSchedule, ticks: seq<Moment>, at: Moment)
    requires at.minute > if ticks == [] then -1 else ticks[|ticks| - 1].minute
    ensures Step(Resting(plan, ticks), Tick(at)) == Ticking(plan, ticks, at, [0])
  {
    hide KeyOf, Evaluations, Starts;
    OneMore(ticks, at);
    var s := Resting(plan, ticks);
    assert Snapshot(s.jobs, s.records, 0) == [] && Snapshot(s.jobs, s.records, 1) == [0];
  }

  lemma VisitGoes(plan: ParsedSchedule, ticks: seq<Moment>, at: Moment)
    requires plan.fixedTime && Matches(plan, at.date)
    requires ticks == [] || KeyOf(ticks[|ticks| - 1]) != KeyOf(at)
    ensures var s := Ticking(plan, ticks, at, [0]);
      Enabled(s, Visit(|ticks|)) && Step(s, Visit(|ticks|)) == Running(plan, ticks, at)
  {
    hide Matches, KeyOf, Evaluations, Starts, Look;
    OneMore(ticks, at);
    var s := Ticking(plan, ticks, at, [0]);
    assert s.evaluated[|ticks|].at == at;
    assert [0][1..] == [];
    assert map[|ticks| := Frame([0], None)][|ticks| := Frame([], None)] == map[|ticks| := Frame([], None)];
    LookGoes(plan, ticks, at);
  }

  lemma LookGoes(plan: ParsedSchedule, ticks: seq<Moment>, at: Moment)
    requires plan.fixedTime && Matches(plan, at.date)
    requires ticks == [] || KeyOf(ticks[|ticks| - 1]) != KeyOf(at)
    ensures Look(Ticking(plan, ticks, at, []), 0, |ticks|, at) == Running(plan, ticks, at)
  {
    hide Matches, KeyOf, Evaluations, Starts;
    OneMore(ticks, at);
  }

  lemma EndGoes(plan: ParsedSchedule, ticks: seq<Moment>, at: Moment)
    ensures var s, n := Running(plan, ticks, at), |ticks|; var ended := s.(frames := map[]);
      && Enabled(s, EndTick(n)) && Step(s, EndTick(n)) == ended
      && Enabled(ended, Complete(n)) && Step(ended, Complete(n)) == Resting(plan, ticks + [at])
  {
    hide KeyOf, Evaluations, Starts;
    var s, n := Running(plan, ticks, at), |ticks|;
    assert s.frames - {n} == map[] && s.runs - {n} == map[];
  }

  lemma {:induction false} RunsOn(s: State, es: seq<Event>, more: seq<Event>)
    requires CanRun(s, es) && CanRun(Run(s, es), more)
    ensures CanRun(s, es + more) && Run(s, es + more) == Run(Run(s, es), more)
    decreases |es|
  {
    hide Step, Enabled;
    if es == [] {
      assert es + more == more;
    } else {
      assert (es + more)[1..] == es[1..] + more && (es + more)[0] == es[0];
      RunsOn(Step(s, es[0]), es[1..], more);
    }
  }

  lemma OneEvent(s: State, e: Event)
    requires Enabled(s, e)
    ensures CanRun(s, [e]) && Run(s, [e]) == Step(s, e)
  {
    hide Step, Enabled;
    assert [e][1..] == [] && CanRun(Step(s, e), []);
  }

  /** A later tick in another local minute that matches starts the job once more. */
  lemma OneMoreTick(plan: ParsedSchedule, ticks: seq<Moment>, at: Moment) returns (es: seq<Event>)
    requires plan.fixedTime && Matches(plan, at.date)
    requires ticks == [] || KeyOf(ticks[|ticks| - 1]) != KeyOf(at)
    requires at.minute > if ticks == [] then -1 else ticks[|ticks| - 1].minute
    ensures CanRun(Resting(plan, ticks), es) && Run(Resting(plan, ticks), es) == Resting(plan, ticks + [at])
  {
    hide Step, Enabled, Resting, Ticking, Running, CanRun, Run, Matches, KeyOf;
    var s, n := Resting(plan, ticks), |ticks|;
    TickGoes(plan, ticks, at);
    VisitGoes(plan, ticks, at);
    EndGoes(plan, ticks, at);
    var running := Running(plan, ticks, at);
    TicksAlways(s, at);
    OneEvent(s, Tick(at));
    OneEvent(Ticking(plan, ticks, at, [0]), Visit(n));
    OneEvent(running, EndTick(n));
    OneEvent(running.(frames := map[]), Complete(n));
    RunsOn(s, [Tick(at)], [Visit(n)]);
    RunsOn(s, [Tick(at)] + [Visit(n)], [EndTick(n)]);
    RunsOn(s, [Tick(at)] + [Visit(n)] + [EndTick(n)], [Complete(n)]);
    es := [Tick(at)] + [Visit(n)] + [EndTick(n)] + [Complete(n)];
  }

  lemma TicksAlways(s: State, at: Moment)
    ensures Enabled(s, Tick(at))
  {
  }

  /** At one and at half past one. */
  const HalfHours := "0,30 1 * * *"

  /** The last Sunday of October, `m` minutes past one. */
  function PastOne(minute: int, m: nat): Moment {
    Moment(minute, 2026, Date(m, 1, 25, 9, 0))
  }

  lemma AtomHits(token: string, f: FieldName, v: nat)
    requires Numeral(token, v) && Token(token) && token != "*" && InField(f, v) && !(f.DayOfWeek? && v == 7)
    ensures var item := Item(One(token), None); Sound(item, f) && Hits(item, f, v)
  {
    hide Numeral, Token, InField;
    var item := Item(One(token), None);
    assert StepIs(item, 1) && Denotes(token, f, v);
    assert StepsTo(item, f, 1, v);
    assert Reaches(item, f, v);
  }

  lemma StarHits(f: FieldName, v: nat)
    requires InField(f, v) && !(f.DayOfWeek? && v == 7)
    ensures var item := Item(All, None); Sound(item, f) && Hits(item, f, v)
  {
    var item := Item(All, None);
    assert StepIs(item, 1) && HasRoom(item, f, 1);
    assert v == Nth(First(f), 1, v - First(f));
    assert StepsTo(item, f, 1, v);
    assert Reaches(item, f, v);
  }

  lemma OneListed(item: Item, f: FieldName)
    requires Sound(item, f)
    ensures Lists([item], Show(item), f) && forall v :: AnyHits([item], f, v) <==> Hits(item, f, v)
  {
    hide Sound, Hits, Show;
    assert Shown([item]) == [Show(item)];
    assert forall x :: x in [item] <==> x == item;
  }

  lemma TwoListed(a: Item, b: Item, f: FieldName)
    requires Sound(a, f) && Sound(b, f)
    ensures Lists([a, b], Show(a) + "," + Show(b), f) && forall v :: AnyHits([a, b], f, v) <==> Hits(a, f, v) || Hits(b, f, v)
  {
    hide Sound, Hits, Show;
    assert Shown([a, b]) == [Show(a), Show(b)];
    assert [Show(a), Show(b)][1..] == [Show(b)] && Join([Show(b)], ',') == Show(b);
    assert forall x :: x in [a, b] <==> x == a || x == b;
  }

  lemma Numerals()
    ensures Numeral("0", 0) && Numeral("1", 1) && Numeral("30", 30)
  {
    assert "0" == Zeros(0) + Decimal(0) && "1" == Zeros(0) + Decimal(1);
    assert Decimal(30) == Decimal(3) + "0" && "30" == Zeros(0) + Decimal(30);
  }

  lemma ShownPlainly(token: string)
    ensures Show(Item(One(token), None)) == token
  {
    assert token + "" == token;
  }

  lemma HalfHoursLaidOut()
    ensures var gaps, words := ["", " ", " ", " ", " ", ""], ["0,30", "1", "*", "*", "*"];
      Spacing(gaps, words) && Layout(gaps, words) == HalfHours
  {
    HalfHoursSpaced();
    NothingLaidOut();
    hide Layout, Spacing;
    LaidBefore(" ", "*", [""], [], "");
    var g1, w1 := [" "] + [""], ["*"] + [];
    LaidBefore(" ", "*", g1, w1, " *");
    var g2, w2 := [" "] + g1, ["*"] + w1;
    LaidBefore(" ", "*", g2, w2, " * *");
    var g3, w3 := [" "] + g2, ["*"] + w2;
    LaidBefore(" ", "1", g3, w3, " * * *");
    var g4, w4 := [" "] + g3, ["1"] + w3;
    LaidBefore("", "0,30", g4, w4, " 1 * * *");
    assert [""] + g4 == ["", " ", " ", " ", " ", ""] && ["0,30"] + w4 == ["0,30", "1", "*", "*", "*"];
  }

  lemma HalfHoursSpaced()
    ensures Spacing(["", " ", " ", " ", " ", ""], ["0,30", "1", "*", "*", "*"])
  {
  }

  lemma NothingLaidOut()
    ensures Layout([""], []) == ""
  {
  }

  lemma LaidBefore(gap: string, word: string, gaps: seq<string>, words: seq<string>, laid: string)
    requires |gaps| == |words| + 1 && Layout(gaps, words) == laid
    ensures Layout([gap] + gaps, [word] + words) == gap + word + laid
  {
    assert ([gap] + gaps)[1..] == gaps && ([word] + words)[1..] == words;
  }

  lemma HalfHoursMatch(m: nat)
    requires m == 0 || m == 30
    ensures Parse(HalfHours).Accepted?
    ensures Parse(HalfHours).schedule.fixedTime && Matches(Parse(HalfHours).schedule, PastOne(0, m).date)
  {
    hide Parse, Matches, Layout, Spacing, Lists, AnyHits, Hits, Sound, Numeral;
    var zero, thirty, one, star := Item(One("0"), None), Item(One("30"), None), Item(One("1"), None), Item(All, None);
    Numerals();
    AtomHits("0", Minute, 0);
    AtomHits("30", Minute, 30);
    AtomHits("1", Hour, 1);
    StarHits(DayOfMonth, 25);
    StarHits(Month, 10);
    StarHits(DayOfWeek, 0);
    TwoListed(zero, thirty, Minute);
    OneListed(one, Hour);
    OneListed(star, DayOfMonth);
    OneListed(star, Month);
    OneListed(star, DayOfWeek);
    HalfHoursLaidOut();
    ShownPlainly("0");
    ShownPlainly("30");
    ShownPlainly("1");
    assert "0" + "," + "30" == "0,30" && Show(star) == "*";
    var cron := Cron([zero, thirty], [one], [star], [star], [star]);
    assert Fields(cron, ["0,30", "1", "*", "*", "*"]);
    assert Written(HalfHours, cron);
    MatchingIsMeaning(HalfHours, cron, PastOne(0, m).date);
  }

  lemma Added(s: State)
    requires s == Fresh && Parse(HalfHours).Accepted?
    ensures Step(s, Add("j", HalfHours, false, true)) == Resting(Parse(HalfHours).schedule, [])
  {
    hide Parse;
  }

  /** One job, at a fixed time, has been started by three ticks, an hour of the clock being repeated: the third is in the local
      minute of the first. */
  ghost predicate FiredTwice(s: State) {
    && |s.records| == 1 && s.records[0].plan.fixedTime
    && |s.evaluated| == 3 && s.evaluated[0].at == PastOne(60, 0) && s.evaluated[1].at == PastOne(90, 30)
    && s.evaluated[2].at == PastOne(120, 0)
    && s.starts == [Start(0, Some(0)), Start(0, Some(1)), Start(0, Some(2))]
    && TickStart(s, 0, 0) && TickStart(s, 0, 2) && KeyAt(s, 0, 0) == KeyAt(s, 0, 2)
  }

  lemma ThreeTicks(plan: ParsedSchedule)
    requires plan.fixedTime
    ensures FiredTwice(Resting(plan, [PastOne(60, 0), PastOne(90, 30), PastOne(120, 0)]))
  {
  }

  /** A job at one and at half past one fires at both, and when the clock is set back by an hour then, at one again: twice in one
      local minute. */
  lemma FiresTwiceInOneMinute() returns (es: seq<Event>)
    ensures CanRun(Fresh, es) && FiredTwice(Run(Fresh, es))
  {
    hide CanRun, Run, Step, Enabled, Parse, Matches;
    HalfHoursMatch(0);
    HalfHoursMatch(30);
    var plan, add := Parse(HalfHours).schedule, Add("j", HalfHours, false, true);
    var a, b, c := PastOne(60, 0), PastOne(90, 30), PastOne(120, 0);
    Added(Fresh);
    AddsAlways(Fresh, add);
    OneEvent(Fresh, add);
    var first := OneMoreTick(plan, [], a);
    var second := OneMoreTick(plan, [a], b);
    var third := OneMoreTick(plan, [a, b], c);
    assert [] + [a] == [a] && [a] + [b] == [a, b] && [a, b] + [c] == [a, b, c];
    RunsOn(Fresh, [add], first);
    RunsOn(Fresh, [add] + first, second);
    RunsOn(Fresh, [add] + first + second, third);
    es := [add] + first + second + third;
    ThreeTicks(plan);
  }

  lemma AddsAlways(s: State, e: Event)
    requires e.Add?
    ensures Enabled(s, e)
  {
  }
}
