/** What a resolution leaves behind, whatever the mixture of lifecycles and failures. */
module DoctorFrames {
  import opened DoctorModel
  import opened DoctorRegistry

  ghost predicate Kept(shelf: map<Key, Instance>, shelf': map<Key, Instance>) {
    forall k :: k in shelf ==> k in shelf' && shelf'[k] == shelf[k]
  }

  /** Nothing cached is lost or replaced, no scope present is dropped, and no key in flight gets cached. */
  ghost predicate Grows(sh: Shelf, sh': Shelf) {
    && sh'.resolving == sh.resolving
    && Kept(sh.singletons, sh'.singletons)
    && (forall n :: n in sh.scopes ==> n in sh'.scopes && Kept(sh.scopes[n], sh'.scopes[n]))
    && sh.made <= sh'.made
    && (forall k :: k in sh.resolving && k in sh'.singletons ==> k in sh.singletons)
    && (forall k, n :: k in sh.resolving && n in sh'.scopes && k in sh'.scopes[n] ==> n in sh.scopes && k in sh.scopes[n])
  }

  lemma GrowsOn(a: Shelf, b: Shelf, c: Shelf)
    requires Grows(a, b) && Grows(b, c)
    ensures Grows(a, c)
  {
  }

  lemma StoringGrows(sh: Shelf, after: Shelf, key: Key, name: string, instance: Instance)
    requires Grows(sh, after) && key !in sh.resolving
    ensures key !in sh.singletons ==> Grows(sh, after.(singletons := after.singletons[key := instance]))
    ensures name in after.scopes && (name in sh.scopes ==> key !in sh.scopes[name]) ==>
              Grows(sh, after.(scopes := after.scopes[name := Put(after.scopes[name], key, instance)]))
  {
  }

  lemma {:induction false} DispenseGrows(reg: Registry, sh: Shelf, key: Key, scope: Option<string>)
    ensures Grows(sh, Dispense(reg, sh, key, scope).0)
    decreases Unstarted(reg, sh), 2
  {
    hide Construct;
    ConstructGrows(reg, sh, key, scope);
  }

  lemma {:induction false} ConstructGrows(reg: Registry, sh: Shelf, key: Key, scope: Option<string>)
    ensures Grows(sh, Construct(reg, sh, key, scope).0)
    decreases Unstarted(reg, sh), 1, 1
  {
    hide Make, Grows;
    if key in reg.services {
      match reg.services[key].mode
      case SINGLETON =>
        MakeGrows(reg, sh, key, scope);
        var (after, outcome) := Make(reg, sh, key, scope);
        if outcome.Built? && key !in sh.singletons { StoringGrows(sh, after, key, "", outcome.instance); }
      case SCOPED => ScopedGrows(reg, sh, key, scope);
      case TRANSIENT => MakeGrows(reg, sh, key, scope);
    }
    StaysPut(sh);
  }

  lemma StaysPut(sh: Shelf)
    ensures Grows(sh, sh)
  {
  }

  lemma {:induction false} ScopedGrows(reg: Registry, sh: Shelf, key: Key, scope: Option<string>)
    requires key in reg.services && reg.services[key].mode == SCOPED
    ensures Grows(sh, Construct(reg, sh, key, scope).0)
    decreases Unstarted(reg, sh), 1, 0
  {
    hide Make, Grows, Enter;
    StaysPut(sh);
    if scope.Some? && scope.value != "" {
      var name := scope.value;
      var sh' := Enter(sh, name);
      EnterGrows(sh, name, key);
      if key !in sh'.scopes[name] {
        MakeGrows(reg, sh', key, scope);
        var (after, outcome) := Make(reg, sh', key, scope);
        GrowsOn(sh, sh', after);
        KeptScope(sh', after, name);
        if outcome.Built? { StoringGrows(sh, after, key, name, outcome.instance); }
      }
    }
  }

  lemma EnterGrows(sh: Shelf, name: string, key: Key)
    ensures Grows(sh, Enter(sh, name))
    ensures name in sh.scopes ==> Enter(sh, name) == sh
  {
  }

  lemma KeptScope(sh: Shelf, after: Shelf, name: string)
    requires Grows(sh, after) && name in sh.scopes
    ensures name in after.scopes && after.resolving == sh.resolving
  {
  }

  lemma {:induction false} MakeGrows(reg: Registry, sh: Shelf, key: Key, scope: Option<string>)
    requires key in reg.services
    ensures Grows(sh, Make(reg, sh, key, scope).0)
    ensures Make(reg, sh, key, scope).1.Built? ==> key !in sh.resolving
    ensures key in Make(reg, sh, key, scope).0.singletons ==> key in sh.singletons
    ensures forall n :: n in Make(reg, sh, key, scope).0.scopes && key in Make(reg, sh, key, scope).0.scopes[n] ==>
              n in sh.scopes && key in sh.scopes[n]
    decreases Unstarted(reg, sh), 0
  {
    hide RunFactory;
    if key !in sh.resolving {
      Started(reg, sh, key);
      FactoryGrows(reg, sh.(resolving := sh.resolving + {key}), reg.services[key].doses, reg.services[key].throws, scope);
    }
  }

  lemma {:induction false} FactoryGrows(reg: Registry, sh: Shelf, doses: seq<Dose>, throws: bool, ambient: Option<string>)
    ensures Grows(sh, RunFactory(reg, sh, doses, throws, ambient).0)
    decreases Unstarted(reg, sh), |doses| + 4
  {
    hide Inject;
    if doses != [] {
      InjectGrows(reg, sh, doses[0], ambient);
      var (after, outcome) := Inject(reg, sh, doses[0], ambient);
      if outcome.Built? || doses[0].caught {
        FactoryGrows(reg, after, doses[1..], throws, ambient);
        GrowsOn(sh, after, RunFactory(reg, after, doses[1..], throws, ambient).0);
      }
    }
  }

  lemma {:induction false} InjectGrows(reg: Registry, sh: Shelf, dose: Dose, ambient: Option<string>)
    ensures Grows(sh, Inject(reg, sh, dose, ambient).0)
    decreases Unstarted(reg, sh), 3
  {
    hide Dispense;
    if Find(reg, dose.target).Some? {
      DispenseGrows(reg, sh, Find(reg, dose.target).value, if dose.scope.Some? then dose.scope else ambient);
    }
  }

  // ----- results -----

  /** A resolution, however it ends, leaves the in-flight set as it was, loses no instance and no scope that was
      there, and if it fails leaves no trace of its scope when it was the first to use it. */
  lemma FrameDiscipline(reg: Registry, sh: Shelf, key: Key, scope: Option<string>)
    ensures var (after, outcome) := Dispense(reg, sh, key, scope);
      && after.resolving == sh.resolving
      && Kept(sh.singletons, after.singletons)
      && (forall n :: n in sh.scopes ==> n in after.scopes && Kept(sh.scopes[n], after.scopes[n]))
      && (outcome.Failed? && scope.Some? && scope.value !in sh.scopes ==> scope.value !in after.scopes)
  {
    hide Construct;
    DispenseGrows(reg, sh, key, scope);
  }

  /** The same for `resolve`. */
  lemma ResolveDiscipline(reg: Registry, sh: Shelf, doses: seq<Dose>, throws: bool, scope: Option<string>)
    ensures var (after, outcome) := Resolve(reg, sh, doses, throws, scope);
      && after.resolving == sh.resolving
      && Kept(sh.singletons, after.singletons)
      && (forall n :: n in sh.scopes ==> n in after.scopes && Kept(sh.scopes[n], after.scopes[n]))
      && (outcome.Failed? && scope.Some? && scope.value !in sh.scopes ==> scope.value !in after.scopes)
  {
    hide RunFactory;
    FactoryGrows(reg, sh, doses, throws, scope);
  }

  /** Success is remembered: dispensing a cached kind of entry again under the same scope hands out the same
      instance and builds nothing. */
  lemma DispensedTwiceIsTheSame(reg: Registry, sh: Shelf, key: Key, scope: Option<string>)
    requires key in reg.services && reg.services[key].mode != TRANSIENT
    requires Dispense(reg, sh, key, scope).1.Built?
    ensures var (after, outcome) := Dispense(reg, sh, key, scope);
      Dispense(reg, after, key, scope) == (after, outcome)
  {
    hide Make;
    if reg.services[key].mode == SINGLETON {
      MakeGrows(reg, sh, key, scope);
    } else {
      MakeGrows(reg, Enter(sh, scope.value), key, scope);
    }
  }

  /** Failure is not: a singleton, or a scoped entry in a scope that stays, that was not cached before a failed
      dispense of it is not cached after. */
  lemma FailureCachesNothing(reg: Registry, sh: Shelf, key: Key, scope: Option<string>)
    requires key in reg.services && reg.services[key].mode != TRANSIENT
    requires Dispense(reg, sh, key, scope).1.Failed?
    ensures var after := Dispense(reg, sh, key, scope).0;
      && (key in after.singletons ==> key in sh.singletons)
      && (scope.Some? && scope.value in after.scopes && key in after.scopes[scope.value] ==>
            scope.value in sh.scopes && key in sh.scopes[scope.value])
  {
    hide Make;
    MakeGrows(reg, sh, key, scope);
    if scope.Some? {
      MakeGrows(reg, Enter(sh, scope.value), key, scope);
    }
  }

  lemma {:induction false} FactoryIsFresh(reg: Registry, sh: Shelf, doses: seq<Dose>, throws: bool, ambient: Option<string>)
    ensures var (after, outcome) := RunFactory(reg, sh, doses, throws, ambient);
      outcome.Built? ==> sh.made <= outcome.instance < after.made
    decreases |doses|
  {
    hide Inject;
    if doses != [] {
      var after := Inject(reg, sh, doses[0], ambient).0;
      InjectGrows(reg, sh, doses[0], ambient);
      FactoryIsFresh(reg, after, doses[1..], throws, ambient);
    }
  }

  lemma MakeIsFresh(reg: Registry, sh: Shelf, key: Key, scope: Option<string>)
    requires key in reg.services
    ensures var (after, outcome) := Make(reg, sh, key, scope); outcome.Built? ==> sh.made <= outcome.instance < after.made
  {
    hide RunFactory;
    if key !in sh.resolving {
      Started(reg, sh, key);
      FactoryIsFresh(reg, sh.(resolving := sh.resolving + {key}), reg.services[key].doses, reg.services[key].throws, scope);
    }
  }

  /** What is handed out is the cached instance or one built for this call; a TRANSIENT entry is built every time. */
  lemma CachedOrFresh(reg: Registry, sh: Shelf, key: Key, scope: Option<string>)
    requires Dispense(reg, sh, key, scope).1.Built?
    ensures key in reg.services
    ensures var instance := Dispense(reg, sh, key, scope).1.instance;
      match reg.services[key].mode
      case SINGLETON => if key in sh.singletons then instance == sh.singletons[key] else instance >= sh.made
      case SCOPED =>
        && scope.Some?
        && if scope.value in sh.scopes && key in sh.scopes[scope.value] then instance == sh.scopes[scope.value][key] else instance >= sh.made
      case TRANSIENT => instance >= sh.made
  {
    hide Make;
    MakeIsFresh(reg, sh, key, scope);
    if scope.Some? { MakeIsFresh(reg, Enter(sh, scope.value), key, scope); }
  }

  /** After `revoke`, no instance cached for the key is handed out again, whatever is registered in its place. */
  lemma RevokedIsForgotten(reg: Registry, sh: Shelf, key: Key, scope: Option<string>)
    ensures var outcome := Dispense(reg, Cleared(sh, key), key, scope).1; outcome.Built? ==> outcome.instance >= sh.made
  {
    hide Dispense;
    if Dispense(reg, Cleared(sh, key), key, scope).1.Built? {
      CachedOrFresh(reg, Cleared(sh, key), key, scope);
    }
  }

  // ----- which scopes a resolution can bring about -----

  /** No factory injects under this scope by name. */
  ghost predicate NeverNamed(reg: Registry, n: string) {
    forall k :: k in reg.services ==> Unmentioned(reg.services[k].doses, n)
  }

  predicate Unmentioned(doses: seq<Dose>, n: string) {
    forall d :: d in doses ==> d.scope != Some(n)
  }

  ghost predicate SameHere(sh: Shelf, sh': Shelf, n: string) {
    n in sh'.scopes <==> n in sh.scopes
  }

  lemma {:induction false} DispenseBrings(reg: Registry, sh: Shelf, key: Key, scope: Option<string>, n: string)
    requires NeverNamed(reg, n) && scope != Some(n)
    ensures SameHere(sh, Dispense(reg, sh, key, scope).0, n)
    decreases Unstarted(reg, sh), 2
  {
    hide Construct;
    ConstructBrings(reg, sh, key, scope, n);
  }

  lemma {:induction false} ConstructBrings(reg: Registry, sh: Shelf, key: Key, scope: Option<string>, n: string)
    requires NeverNamed(reg, n) && scope != Some(n)
    ensures SameHere(sh, Construct(reg, sh, key, scope).0, n)
    decreases Unstarted(reg, sh), 1
  {
    hide Make;
    if key in reg.services {
      MakeBrings(reg, sh, key, scope, n);
      if scope.Some? { MakeBrings(reg, Enter(sh, scope.value), key, scope, n); }
    }
  }

  lemma {:induction false} MakeBrings(reg: Registry, sh: Shelf, key: Key, scope: Option<string>, n: string)
    requires key in reg.services && NeverNamed(reg, n) && scope != Some(n)
    ensures SameHere(sh, Make(reg, sh, key, scope).0, n)
    decreases Unstarted(reg, sh), 0
  {
    hide RunFactory;
    if key !in sh.resolving {
      Started(reg, sh, key);
      FactoryBrings(reg, sh.(resolving := sh.resolving + {key}), reg.services[key].doses, reg.services[key].throws, scope, n);
    }
  }

  lemma {:induction false} FactoryBrings(reg: Registry, sh: Shelf, doses: seq<Dose>, throws: bool, ambient: Option<string>, n: string)
    requires NeverNamed(reg, n) && Unmentioned(doses, n) && ambient != Some(n)
    ensures SameHere(sh, RunFactory(reg, sh, doses, throws, ambient).0, n)
    decreases Unstarted(reg, sh), |doses| + 4
  {
    hide Inject;
    if doses != [] {
      assert doses[0] in doses;
      InjectBrings(reg, sh, doses[0], ambient, n);
      var after := Inject(reg, sh, doses[0], ambient).0;
      FactoryBrings(reg, after, doses[1..], throws, ambient, n);
    }
  }

  lemma {:induction false} InjectBrings(reg: Registry, sh: Shelf, dose: Dose, ambient: Option<string>, n: string)
    requires NeverNamed(reg, n) && dose.scope != Some(n) && ambient != Some(n)
    ensures SameHere(sh, Inject(reg, sh, dose, ambient).0, n)
    decreases Unstarted(reg, sh), 3
  {
    hide Dispense;
    if Find(reg, dose.target).Some? {
      DispenseBrings(reg, sh, Find(reg, dose.target).value, if dose.scope.Some? then dose.scope else ambient, n);
    }
  }

  /** The scopes a failed `dispense` leaves behind are among those some factory injects under by name; the operation's
      own is never one of them. So where no factory names a scope, a failure leaves the scopes it found. */
  lemma FailureLeavesOnlyNamedScopes(reg: Registry, sh: Shelf, key: Key, scope: Option<string>)
    requires Dispense(reg, sh, key, scope).1.Failed?
    ensures var after := Dispense(reg, sh, key, scope).0;
      && (forall n :: n in after.scopes && n !in sh.scopes ==> scope != Some(n) && !NeverNamed(reg, n))
      && ((forall n :: NeverNamed(reg, n)) ==> after.scopes.Keys == sh.scopes.Keys)
  {
    hide Construct, NeverNamed;
    FrameDiscipline(reg, sh, key, scope);
    forall n | scope != Some(n) && NeverNamed(reg, n) ensures SameHere(sh, Dispense(reg, sh, key, scope).0, n) {
      DispenseBrings(reg, sh, key, scope, n);
    }
  }

  /** The same for `resolve`, whose class may name scopes itself. */
  lemma FailedResolveLeavesOnlyNamedScopes(reg: Registry, sh: Shelf, doses: seq<Dose>, throws: bool, scope: Option<string>)
    requires Resolve(reg, sh, doses, throws, scope).1.Failed?
    ensures var after := Resolve(reg, sh, doses, throws, scope).0;
      && (forall n :: n in after.scopes && n !in sh.scopes ==> scope != Some(n) && !(NeverNamed(reg, n) && Unmentioned(doses, n)))
      && ((forall n :: NeverNamed(reg, n) && Unmentioned(doses, n)) ==> after.scopes.Keys == sh.scopes.Keys)
  {
    hide RunFactory, NeverNamed, Unmentioned;
    ResolveDiscipline(reg, sh, doses, throws, scope);
    forall n | scope != Some(n) && NeverNamed(reg, n) && Unmentioned(doses, n)
      ensures SameHere(sh, Resolve(reg, sh, doses, throws, scope).0, n)
    {
      FactoryBrings(reg, sh, doses, throws, scope, n);
    }
  }

  /** A factory that injects `b` under the scope `n` by name, and then throws. */
  function Around(n: string): Registry {
    Registry(map[Label("a") := Registration(TRANSIENT, [Dose(ByName("b"), Some(n), false)], true),
                 Label("b") := Registration(SCOPED, [], false)],
             map["a" := Label("a"), "b" := Label("b")])
  }

  /** And any scope named so can be left behind, under any other operation: the rollback covers the frame's own scope
      only, and a dependency first to use another scope and built in it outlives the failure around it. */
  lemma OtherScopesMaySurvive(n: string, own: string)
    requires n != "" && n != own
    ensures var (after, outcome) := Dispense(Around(n), Shelf(map[], map[], {}, 0), Label("a"), Some(own));
      outcome == Failed(FactoryThrew) && own !in after.scopes &&
      n in after.scopes && Label("b") in after.scopes[n]
  {
    var reg, a, b := Around(n), Label("a"), Label("b");
    var inner := Shelf(map[], map[], {a}, 0);
    var sh := inner.(scopes := map[n := map[]]);
    assert a != b;
    assert RunFactory(reg, sh.(resolving := {a, b}), [], false, Some(n)) ==
           (sh.(resolving := {a, b}, made := 1), Built(0));
    assert {a} + {b} == {a, b} && {a, b} - {b} == {a} && {} + {a} == {a} && {a} - {a} == {};
    assert Make(reg, sh, b, Some(n)) == (sh.(made := 1), Built(0));
    var dose := Dose(ByName("b"), Some(n), false);
    var after := Shelf(map[], map[n := map[b := 0]], {a}, 1);
    assert Enter(inner, n) == sh;
    assert sh.scopes[n := Put(sh.scopes[n], b, 0)] == after.scopes;
    assert Construct(reg, inner, b, Some(n)) == (after, Built(0));
    assert Inject(reg, inner, dose, Some(own)) == (after, Built(0));
    assert [dose][1..] == [];
    assert RunFactory(reg, after, [], true, Some(own)) == (after, Failed(FactoryThrew));
    assert RunFactory(reg, inner, [dose], true, Some(own)) == (after, Failed(FactoryThrew));
    var start := Shelf(map[], map[], {}, 0);
    assert start.(resolving := start.resolving + {a}) == inner;
    assert Make(reg, start, a, Some(own)) == (after.(resolving := {}), Failed(FactoryThrew));
    assert after.scopes - {own} == after.scopes;
  }
}
