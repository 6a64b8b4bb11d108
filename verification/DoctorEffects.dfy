/** What a resolution hands out and leaves in the caches: which instance, in which scope, and which failure. */
module DoctorEffects {
  import opened DoctorModel
  import opened DoctorRegistry
  import opened DoctorFrames

  // ----- what a dose stands for -----

  /** The scope an injection resolves under: its own if it names one, else that of the operation around it. */
  function Under(dose: Dose, ambient: Option<string>): Option<string> {
    match dose.scope
    case Some(name) => Some(name)
    case None => ambient
  }

  predicate Stands(reg: Registry, dose: Dose, key: Key) {
    match dose.target
    case ByKey(k) => key == k
    case ByName(n) => n in reg.byName && key == reg.byName[n]
  }

  /** The key has an instance where its lifecycle keeps them: for all, in this scope, or nowhere. */
  predicate Stored(reg: Registry, sh: Shelf, key: Key, scope: Option<string>) {
    && key in reg.services
    && match reg.services[key].mode
       case SINGLETON => key in sh.singletons
       case SCOPED => scope.Some? && scope.value != "" && scope.value in sh.scopes && key in sh.scopes[scope.value]
       case TRANSIENT => true
  }

  /** And that instance is this one. */
  predicate StoredAs(reg: Registry, sh: Shelf, key: Key, scope: Option<string>, instance: Instance) {
    && Stored(reg, sh, key, scope)
    && match reg.services[key].mode
       case SINGLETON => sh.singletons[key] == instance
       case SCOPED => sh.scopes[scope.value][key] == instance
       case TRANSIENT => true
  }

  // ----- what is handed out is stored -----

  /** What `dispense` hands out is in the cache its lifecycle says, under the scope it was asked for; a TRANSIENT key is in no
      cache it was not in before. */
  lemma HandedOutIsStored(reg: Registry, sh: Shelf, key: Key, scope: Option<string>)
    requires Dispense(reg, sh, key, scope).1.Built?
    ensures var (after, outcome) := Dispense(reg, sh, key, scope);
      StoredAs(reg, after, key, scope, outcome.instance)
    ensures reg.services[key].mode == TRANSIENT ==>
      var after := Dispense(reg, sh, key, scope).0;
      && (key in after.singletons ==> key in sh.singletons)
      && forall n :: n in after.scopes && key in after.scopes[n] ==> n in sh.scopes && key in sh.scopes[n]
  {
    hide Make;
    MakeGrows(reg, sh, key, scope);
    if scope.Some? {
      var sh' := Enter(sh, scope.value);
      MakeGrows(reg, sh', key, scope);
    }
  }

  /** What is stored already is handed out as it is: no factory runs and nothing changes. */
  lemma StoredIsHandedOut(reg: Registry, sh: Shelf, key: Key, scope: Option<string>, instance: Instance)
    requires StoredAs(reg, sh, key, scope, instance) && reg.services[key].mode != TRANSIENT
    ensures Dispense(reg, sh, key, scope) == (sh, Built(instance))
  {
  }

  lemma StoredStays(reg: Registry, sh: Shelf, sh': Shelf, key: Key, scope: Option<string>)
    requires Grows(sh, sh') && Stored(reg, sh, key, scope)
    ensures Stored(reg, sh', key, scope)
  {
  }

  // ----- dependencies -----

  /** The dose was resolved: its target is registered and stored under the dose's own scope, or else the ambient one. */
  ghost predicate Supplied(reg: Registry, sh: Shelf, dose: Dose, ambient: Option<string>) {
    exists key :: Stands(reg, dose, key) && Stored(reg, sh, key, Under(dose, ambient))
  }

  lemma SuppliedStays(reg: Registry, sh: Shelf, sh': Shelf, dose: Dose, ambient: Option<string>)
    requires Grows(sh, sh') && Supplied(reg, sh, dose, ambient)
    ensures Supplied(reg, sh', dose, ambient)
  {
    hide Grows, Stored;
    var key :| Stands(reg, dose, key) && Stored(reg, sh, key, Under(dose, ambient));
    StoredStays(reg, sh, sh', key, Under(dose, ambient));
  }

  lemma InjectedIsSupplied(reg: Registry, sh: Shelf, dose: Dose, ambient: Option<string>)
    requires Inject(reg, sh, dose, ambient).1.Built?
    ensures Supplied(reg, Inject(reg, sh, dose, ambient).0, dose, ambient)
  {
    hide Dispense;
    var key := Find(reg, dose.target).value;
    HandedOutIsStored(reg, sh, key, Under(dose, ambient));
    assert Stands(reg, dose, key);
  }

  lemma {:induction false} FactoryIsSupplied(reg: Registry, sh: Shelf, doses: seq<Dose>, throws: bool, ambient: Option<string>)
    requires RunFactory(reg, sh, doses, throws, ambient).1.Built?
    ensures !throws
    ensures forall d :: d in doses && !d.caught ==> Supplied(reg, RunFactory(reg, sh, doses, throws, ambient).0, d, ambient)
    decreases |doses|
  {
    hide Inject, Supplied;
    if doses == [] {
      SameBuilt(reg, sh, ambient);
    } else {
      var (after, outcome) := Inject(reg, sh, doses[0], ambient);
      var done := RunFactory(reg, after, doses[1..], throws, ambient).0;
      FactoryIsSupplied(reg, after, doses[1..], throws, ambient);
      if !doses[0].caught {
        InjectedIsSupplied(reg, sh, doses[0], ambient);
        FactoryGrows(reg, after, doses[1..], throws, ambient);
        SuppliedStays(reg, after, done, doses[0], ambient);
      }
      assert forall d :: d in doses ==> d == doses[0] || d in doses[1..];
    }
  }

  lemma SameBuilt(reg: Registry, sh: Shelf, ambient: Option<string>)
    ensures RunFactory(reg, sh, [], false, ambient) == (sh.(made := sh.made + 1), Built(sh.made))
  {
  }

  /** Scopes are inherited: what was built just now has every dependency it did not catch stored under the scope the dose names,
      or else under the scope the whole was asked for. Its factory did not throw. */
  lemma BuiltHasItsDependencies(reg: Registry, sh: Shelf, key: Key, scope: Option<string>)
    requires Dispense(reg, sh, key, scope).1.Built? && key in reg.services
    requires reg.services[key].mode == TRANSIENT || !Stored(reg, sh, key, scope)
    ensures !reg.services[key].throws
    ensures forall d :: d in reg.services[key].doses && !d.caught ==>
      Supplied(reg, Dispense(reg, sh, key, scope).0, d, scope)
  {
    hide Make, Supplied, Grows;
    var start := if reg.services[key].mode == SCOPED then Enter(sh, scope.value) else sh;
    var (made, outcome) := Make(reg, start, key, scope);
    assert outcome.Built?;
    MadeIsSupplied(reg, start, key, scope);
    MakeGrows(reg, start, key, scope);
    StoringSupplies(reg, start, made, key, scope, outcome.instance);
    StaysPut(made);
    forall d | d in reg.services[key].doses && !d.caught ensures Supplied(reg, Dispense(reg, sh, key, scope).0, d, scope) {
      SuppliedStays(reg, made, Dispense(reg, sh, key, scope).0, d, scope);
    }
  }

  /** So a SCOPED key built in `n` has every SCOPED dependency it did not catch in `n` too, or in the scope the dose names. */
  lemma ScopeIsInherited(reg: Registry, sh: Shelf, key: Key, n: string, dose: Dose, dependency: Key)
    requires Dispense(reg, sh, key, Some(n)).1.Built? && key in reg.services && reg.services[key].mode == SCOPED
    requires n !in sh.scopes || key !in sh.scopes[n]
    requires dose in reg.services[key].doses && !dose.caught && Stands(reg, dose, dependency)
    requires dependency in reg.services && reg.services[dependency].mode == SCOPED
    ensures var scopes := Dispense(reg, sh, key, Some(n)).0.scopes;
      && (dose.scope == None ==> n in scopes && dependency in scopes[n])
      && forall m :: dose.scope == Some(m) ==> m in scopes && dependency in scopes[m]
  {
    BuiltHasItsDependencies(reg, sh, key, Some(n));
    hide Dispense;
  }

  /** Storing the new instance takes nothing away. */
  lemma StoringSupplies(reg: Registry, sh: Shelf, made: Shelf, key: Key, scope: Option<string>, instance: Instance)
    requires Grows(sh, made) && key !in sh.resolving && made.resolving == sh.resolving
    ensures key !in made.singletons ==> Grows(made, made.(singletons := made.singletons[key := instance]))
    ensures scope.Some? && scope.value in made.scopes && key !in made.scopes[scope.value] ==>
      Grows(made, made.(scopes := made.scopes[scope.value := Put(made.scopes[scope.value], key, instance)]))
  {
    StaysPut(made);
    StoringGrows(made, made, key, if scope.Some? then scope.value else "", instance);
  }

  lemma MadeIsSupplied(reg: Registry, sh: Shelf, key: Key, scope: Option<string>)
    requires key in reg.services && Make(reg, sh, key, scope).1.Built?
    ensures !reg.services[key].throws
    ensures forall d :: d in reg.services[key].doses && !d.caught ==> Supplied(reg, Make(reg, sh, key, scope).0, d, scope)
  {
    hide RunFactory, Supplied;
    Started(reg, sh, key);
    var inner := sh.(resolving := sh.resolving + {key});
    var built := RunFactory(reg, inner, reg.services[key].doses, reg.services[key].throws, scope).0;
    FactoryIsSupplied(reg, inner, reg.services[key].doses, reg.services[key].throws, scope);
    forall d | d in reg.services[key].doses && !d.caught ensures Supplied(reg, Make(reg, sh, key, scope).0, d, scope) {
      SuppliedWhateverIsInFlight(reg, built, built.resolving - {key}, d, scope);
    }
  }

  lemma SuppliedWhateverIsInFlight(reg: Registry, sh: Shelf, resolving: set<Key>, dose: Dose, ambient: Option<string>)
    requires Supplied(reg, sh, dose, ambient)
    ensures Supplied(reg, sh.(resolving := resolving), dose, ambient)
  {
    var key :| Stands(reg, dose, key) && Stored(reg, sh, key, Under(dose, ambient));
    assert Stored(reg, sh.(resolving := resolving), key, Under(dose, ambient));
  }

  // ----- construction is the injections in order -----

  /** One injection is a dispense of what the dose stands for, under the scope it resolves under; a name nobody took fails. */
  ghost predicate Injects(reg: Registry, before: Shelf, dose: Dose, ambient: Option<string>, after: Shelf, outcome: Outcome) {
    if exists key :: Stands(reg, dose, key) then
      exists key :: Stands(reg, dose, key) && (after, outcome) == Dispense(reg, before, key, Under(dose, ambient))
    else
      after == before && outcome == Failed(Unregistered)
  }

  /** From `steps[0]`, one injection after the other, the last of them leaving `steps[|outcomes|]`; only the last may be a failure
      that the factory does not catch. */
  ghost predicate InTurn(reg: Registry, doses: seq<Dose>, ambient: Option<string>, steps: seq<Shelf>, outcomes: seq<Outcome>) {
    && |steps| == |outcomes| + 1 && |outcomes| <= |doses|
    && (forall i :: 0 <= i < |outcomes| ==> Injects(reg, steps[i], doses[i], ambient, steps[i + 1], outcomes[i]))
    && forall i :: 0 <= i < |outcomes| - 1 ==> outcomes[i].Built? || doses[i].caught
  }

  predicate Stops(doses: seq<Dose>, outcomes: seq<Outcome>) {
    0 < |outcomes| <= |doses| && outcomes[|outcomes| - 1].Failed? && !doses[|outcomes| - 1].caught
  }

  /** A construction from `sh`: the failure that stopped it, or every injection done and then a throw or a new instance. */
  ghost predicate Constructs(reg: Registry, sh: Shelf, doses: seq<Dose>, throws: bool, ambient: Option<string>,
                             after: Shelf, outcome: Outcome)
  {
    exists steps, outcomes :: InTurn(reg, doses, ambient, steps, outcomes) && Ends(sh, doses, throws, steps, outcomes, after, outcome)
  }

  ghost predicate Ends(sh: Shelf, doses: seq<Dose>, throws: bool, steps: seq<Shelf>, outcomes: seq<Outcome>,
                       after: Shelf, outcome: Outcome)
  {
    && |steps| == |outcomes| + 1 && steps[0] == sh
    && var last := steps[|outcomes|];
       if Stops(doses, outcomes) then (after, outcome) == (last, outcomes[|outcomes| - 1])
       else if |outcomes| < |doses| then false
       else if throws then (after, outcome) == (last, Failed(FactoryThrew))
       else (after, outcome) == (last.(made := last.made + 1), Built(last.made))
  }

  lemma InjectInjects(reg: Registry, sh: Shelf, dose: Dose, ambient: Option<string>)
    ensures var (after, outcome) := Inject(reg, sh, dose, ambient); Injects(reg, sh, dose, ambient, after, outcome)
  {
    hide Dispense;
    var key := Find(reg, dose.target);
    if key.Some? {
      assert Stands(reg, dose, key.value);
    }
  }

  lemma {:induction false} FactoryConstructs(reg: Registry, sh: Shelf, doses: seq<Dose>, throws: bool, ambient: Option<string>)
    ensures var (after, outcome) := RunFactory(reg, sh, doses, throws, ambient);
      Constructs(reg, sh, doses, throws, ambient, after, outcome)
    decreases |doses|
  {
    hide Inject, Injects;
    var (after, outcome) := RunFactory(reg, sh, doses, throws, ambient);
    if doses == [] {
      assert InTurn(reg, doses, ambient, [sh], []) && Ends(sh, doses, throws, [sh], [], after, outcome);
    } else {
      var (next, first) := Inject(reg, sh, doses[0], ambient);
      InjectInjects(reg, sh, doses[0], ambient);
      if first.Failed? && !doses[0].caught {
        assert InTurn(reg, doses, ambient, [sh, next], [first]) && Ends(sh, doses, throws, [sh, next], [first], after, outcome);
      } else {
        FactoryConstructs(reg, next, doses[1..], throws, ambient);
        var steps, outcomes :| InTurn(reg, doses[1..], ambient, steps, outcomes)
                            && Ends(next, doses[1..], throws, steps, outcomes, after, outcome);
        OneMoreInTurn(reg, sh, doses, throws, ambient, first, steps, outcomes, after, outcome);
      }
    }
  }

  lemma OneMoreInTurn(reg: Registry, sh: Shelf, doses: seq<Dose>, throws: bool, ambient: Option<string>, first: Outcome,
                      steps: seq<Shelf>, outcomes: seq<Outcome>, after: Shelf, outcome: Outcome)
    requires doses != [] && |steps| > 0 && (first.Built? || doses[0].caught)
    requires Injects(reg, sh, doses[0], ambient, steps[0], first)
    requires InTurn(reg, doses[1..], ambient, steps, outcomes) && Ends(steps[0], doses[1..], throws, steps, outcomes, after, outcome)
    ensures Constructs(reg, sh, doses, throws, ambient, after, outcome)
  {
    hide Injects;
    var steps', outcomes' := [sh] + steps, [first] + outcomes;
    forall i | 0 <= i < |outcomes'| ensures Injects(reg, steps'[i], doses[i], ambient, steps'[i + 1], outcomes'[i]) {
      if i > 0 {
        assert Injects(reg, steps[i - 1], doses[1..][i - 1], ambient, steps[i], outcomes[i - 1]);
      }
    }
    forall i | 0 <= i < |outcomes'| - 1 ensures outcomes'[i].Built? || doses[i].caught {
      if i > 0 {
        assert outcomes[i - 1].Built? || doses[1..][i - 1].caught;
      }
    }
    assert InTurn(reg, doses, ambient, steps', outcomes');
    assert Ends(sh, doses, throws, steps', outcomes', after, outcome);
  }

  // ----- dispense and resolve -----

  /** What `dispense` refuses before it constructs anything: a key nobody registered, a SCOPED key without a scope, and a key
      that is being constructed and is not stored. A refusal leaves the container as it was. */
  lemma RefusedBeforeConstruction(reg: Registry, sh: Shelf, key: Key, scope: Option<string>)
    ensures key !in reg.services ==> Dispense(reg, sh, key, scope) == (sh, Failed(Unregistered))
    ensures key in reg.services && reg.services[key].mode == SCOPED && (scope == None || scope == Some("")) ==>
      Dispense(reg, sh, key, scope) == (sh, Failed(ScopeRequired))
    ensures key in sh.resolving && MustConstruct(reg, sh, key, scope) ==> Dispense(reg, sh, key, scope) == (sh, Failed(Circular))
  {
    hide Make;
    if scope.Some? && scope.value !in sh.scopes {
      assert sh.scopes[scope.value := map[]] - {scope.value} == sh.scopes;
      assert sh.scopes - {scope.value} == sh.scopes;
    }
    if key in sh.resolving && MustConstruct(reg, sh, key, scope) {
      GuardedByFlight(reg, if reg.services[key].mode == SCOPED then Enter(sh, scope.value) else sh, key, scope);
    }
  }

  lemma GuardedByFlight(reg: Registry, sh: Shelf, key: Key, scope: Option<string>)
    requires key in reg.services
    ensures key in sh.resolving ==> Make(reg, sh, key, scope) == (sh, Failed(Circular))
    ensures key !in sh.resolving ==>
      var start, how := sh.(resolving := sh.resolving + {key}), reg.services[key];
      var (last, outcome) := RunFactory(reg, start, how.doses, how.throws, scope);
      Make(reg, sh, key, scope) == (last.(resolving := sh.resolving), outcome)
  {
    hide RunFactory;
    if key !in sh.resolving {
      Started(reg, sh, key);
    }
  }

  /** The key is registered, has the scope it needs, and no instance that could be handed out. */
  predicate MustConstruct(reg: Registry, sh: Shelf, key: Key, scope: Option<string>) {
    && key in reg.services
    && (reg.services[key].mode == SCOPED ==> scope.Some? && scope.value != "")
    && (reg.services[key].mode == TRANSIENT || !Stored(reg, sh, key, scope))
  }

  /** The shelf a construction starts from: the key in flight and, for a SCOPED key, the scope there. */
  predicate Begins(reg: Registry, sh: Shelf, key: Key, scope: Option<string>, start: Shelf) {
    && start.resolving == sh.resolving + {key} && start.singletons == sh.singletons && start.made == sh.made
    && start.scopes ==
       if key in reg.services && reg.services[key].mode == SCOPED && scope.Some? && scope.value !in sh.scopes
       then sh.scopes[scope.value := map[]] else sh.scopes
  }

  /** Where the new instance goes: to the singletons, to its scope, or nowhere else. */
  predicate Keeps(reg: Registry, key: Key, scope: Option<string>, instance: Instance, last: Shelf, after: Shelf) {
    && key in reg.services && after.made == last.made
    && match reg.services[key].mode
       case SINGLETON => after.scopes == last.scopes && after.singletons == last.singletons[key := instance]
       case SCOPED =>
         && scope.Some? && scope.value in last.scopes && after.singletons == last.singletons
         && after.scopes == last.scopes[scope.value := Put(last.scopes[scope.value], key, instance)]
       case TRANSIENT => after.singletons == last.singletons && after.scopes == last.scopes
  }

  /** A failure stores nothing and drops the scope it was asked for if that was not there. */
  predicate Drops(sh: Shelf, scope: Option<string>, last: Shelf, after: Shelf) {
    && after.made == last.made && after.singletons == last.singletons
    && after.scopes == if scope.Some? && scope.value !in sh.scopes then last.scopes - {scope.value} else last.scopes
  }

  /** Otherwise `dispense` constructs: with the key in flight it runs the injections in order, then stores the instance, or on
      a failure passes that on and drops the scope it brought; the key is no longer in flight. */
  lemma DispenseConstructs(reg: Registry, sh: Shelf, key: Key, scope: Option<string>)
    requires MustConstruct(reg, sh, key, scope) && key !in sh.resolving
    ensures var (after, outcome) := Dispense(reg, sh, key, scope);
      && after.resolving == sh.resolving
      && exists start, last ::
           && Begins(reg, sh, key, scope, start)
           && Constructs(reg, start, reg.services[key].doses, reg.services[key].throws, scope, last, outcome)
           && (if outcome.Built? then Keeps(reg, key, scope, outcome.instance, last, after) else Drops(sh, scope, last, after))
  {
    hide RunFactory, Constructs, Make;
    var (after, outcome) := Dispense(reg, sh, key, scope);
    var entered := if reg.services[key].mode == SCOPED then Enter(sh, scope.value) else sh;
    var start := entered.(resolving := entered.resolving + {key});
    GuardedByFlight(reg, entered, key, scope);
    var how := reg.services[key];
    var last := RunFactory(reg, start, how.doses, how.throws, scope).0;
    FactoryConstructs(reg, start, how.doses, how.throws, scope);
    MustMake(reg, sh, key, scope);
    assert outcome == RunFactory(reg, start, how.doses, how.throws, scope).1;
    assert Begins(reg, sh, key, scope, start);
    assert if outcome.Built? then Keeps(reg, key, scope, outcome.instance, last, after) else Drops(sh, scope, last, after);
  }

  lemma MustMake(reg: Registry, sh: Shelf, key: Key, scope: Option<string>)
    requires MustConstruct(reg, sh, key, scope)
    ensures var entered := if reg.services[key].mode == SCOPED then Enter(sh, scope.value) else sh;
      && Construct(reg, sh, key, scope).1 == Make(reg, entered, key, scope).1
      && (Construct(reg, sh, key, scope).1.Failed? ==> Construct(reg, sh, key, scope).0 == Make(reg, entered, key, scope).0)
  {
    hide Make;
  }

  /** `resolve` constructs with no key in flight and stores nothing. */
  lemma ResolveConstructs(reg: Registry, sh: Shelf, doses: seq<Dose>, throws: bool, scope: Option<string>)
    ensures var (after, outcome) := Resolve(reg, sh, doses, throws, scope);
      && after.resolving == sh.resolving
      && exists last ::
           && Constructs(reg, sh, doses, throws, scope, last, outcome)
           && (if outcome.Built? then after == last else Drops(sh, scope, last, after))
  {
    hide RunFactory, Constructs;
    FactoryConstructs(reg, sh, doses, throws, scope);
    var (last, outcome) := RunFactory(reg, sh, doses, throws, scope);
    assert Constructs(reg, sh, doses, throws, scope, last, outcome);
  }

  // ----- registration -----

  /** A class is refused exactly when it is registered or its name is a label's. Accepted, it is what its own key and its name
      find; everything else is found as before. */
  lemma PrescribedIsFound(reg: Registry, class_: Key, how: Registration)
    requires class_.Class? && Indexed(reg)
    ensures var change := Prescribe(reg, class_, how);
      && (change.DuplicateVial? <==> class_ in reg.services || Label(class_.name) in reg.services)
      && (change.Accepted? ==> Replaces(reg, change.reg, class_, how))
  {
  }

  /** Stocking is refused exactly when the key is registered or its name is taken. */
  lemma StockedIsFound(reg: Registry, key: Key, how: Registration)
    requires Indexed(reg)
    ensures var change := Stock(reg, key, how);
      && (change.DuplicateVial? <==> key in reg.services || exists other :: Find(reg, ByName(key.name)) == Some(other))
      && (change.Accepted? ==> Replaces(reg, change.reg, key, how))
  {
  }

  /** The key and its name now find this registration, and no other key or name finds anything else than before. */
  ghost predicate Replaces(reg: Registry, reg': Registry, key: Key, how: Registration) {
    && reg'.services.Keys == reg.services.Keys + {key} && reg'.services[key] == how
    && (forall k :: k in reg.services && k != key ==> reg'.services[k] == reg.services[k])
    && Find(reg', ByName(key.name)) == Some(key)
    && forall n :: n != key.name ==> Find(reg', ByName(n)) == Find(reg, ByName(n))
  }

  /** A revoked key is not found any more, neither by its name; every other key and name is found as before. Its instances are
      dropped from the singletons and from every scope, and no other instance and no scope is. */
  lemma RevokedIsNotFound(reg: Registry, sh: Shelf, key: Key)
    requires Indexed(reg)
    ensures var reg' := Revoked(reg, key);
      && reg'.services.Keys == reg.services.Keys - {key}
      && (forall k :: k in reg'.services ==> reg'.services[k] == reg.services[k])
      && forall n :: Find(reg', ByName(n)) == if Find(reg, ByName(n)) == Some(key) then None else Find(reg, ByName(n))
    ensures var sh' := Cleared(sh, key);
      && sh'.resolving == sh.resolving && sh'.made == sh.made && sh'.scopes.Keys == sh.scopes.Keys
      && WithoutIt(sh.singletons, sh'.singletons, key)
      && forall n :: n in sh.scopes ==> WithoutIt(sh.scopes[n], sh'.scopes[n], key)
  {
  }

  predicate WithoutIt(shelf: map<Key, Instance>, shelf': map<Key, Instance>, key: Key) {
    shelf'.Keys == shelf.Keys - {key} && forall k :: k in shelf' ==> shelf'[k] == shelf[k]
  }

  /** A child reads its own entries and, where it has none, its parent's. */
  lemma NearestIsFound(parent: Registry, child: Registry, key: Key, name: string)
    ensures var both := Over(parent, child);
      && (key in child.services ==> key in both.services && both.services[key] == child.services[key])
      && (key !in child.services ==> (key in both.services <==> key in parent.services))
      && (key !in child.services && key in parent.services ==> both.services[key] == parent.services[key])
      && Find(both, ByName(name)) == if name in child.byName then Some(child.byName[name]) else Find(parent, ByName(name))
  {
  }
}
