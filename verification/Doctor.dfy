/** The container of `Doctor.ts`, proved against the registry and resolution functions.

    An exception is a `Failed` outcome, and `finally` the code after the call. Constructing an instance is running
    its factory's injections in order. */
module Doctor {
  import opened DoctorModel
  import opened DoctorRegistry

  /** The two ambient stacks shared by every container. */
  class Ambient {
    var scopes: seq<Option<string>>
    var containers: seq<Container>

    constructor ()
      ensures scopes == [] && containers == []
    {
      scopes, containers := [], [];
    }
  }

  class Container {
    const parent: Container?
    ghost const depth: nat

    var services: map<Key, Registration>
    var byName: map<string, Key>
    var singletons: map<Key, Instance>
    var scopes: map<string, map<Key, Instance>>
    var resolving: set<Key>
    var made: nat

    ghost predicate Linked()
      decreases depth
    {
      parent != null ==> parent.depth < depth && parent.Linked()
    }

    /** This container and its ancestors. */
    ghost function Line(): (line: set<Container>)
      requires Linked()
      ensures this in line && forall c :: c in line ==> c == this || c.depth < depth
      decreases depth
    {
      {this} + if parent == null then {} else parent.Line()
    }

    ghost function Own(): Registry
      reads this`services, this`byName
    {
      Registry(services, byName)
    }

    /** What this container resolves against: its own entries, then its parent's. */
    ghost function View(): Registry
      requires Linked()
      reads Line()`services, Line()`byName
      decreases depth
    {
      if parent == null then Own() else Over(parent.View(), Own())
    }


    ghost function Kept(): Shelf
      reads this`singletons, this`scopes, this`resolving, this`made
    {
      Shelf(singletons, scopes, resolving, made)
    }

    /** Every container on the line keeps its name index sound. */
    ghost predicate Valid()
      requires Linked()
      reads Line()`services, Line()`byName
      decreases depth
    {
      Indexed(Own()) && (parent != null ==> parent.Valid())
    }

    constructor (parent: Container?)
      requires parent != null ==> parent.Linked() && parent.Valid()
      ensures this.parent == parent && Linked() && Valid()
      ensures Own() == Registry(map[], map[]) && Kept() == Shelf(map[], map[], {}, 0)
    {
      this.parent := parent;
      depth := if parent == null then 0 else parent.depth + 1;
      services, byName := map[], map[];
      singletons, scopes, resolving, made := map[], map[], {}, 0;
    }

    /** A name that resolves has a registration, in this container or an ancestor. */
    lemma EveryNameResolves()
      requires Linked() && Valid()
      ensures Resolvable(View())
      decreases depth
    {
      if parent != null {
        parent.EveryNameResolves();
        ReadThroughStaysResolvable(parent.View(), Own());
      }
    }

    // ----- registration -----

    method Prescribe(class_: Key, how: Registration) returns (accepted: bool)
      requires class_.Class? && Linked() && Valid()
      modifies this`services, this`byName
      ensures var change := old(DoctorRegistry.Prescribe(Own(), class_, how));
        accepted == change.Accepted? && Own() == if accepted then change.reg else old(Own())
      ensures Valid()
    {
      IndexStaysSound(Own(), class_, how);
      assert parent != null ==> this !in parent.Line();
      if class_ in services { return false; }
      if class_.name in byName && byName[class_.name].Label? { return false; }
      services := services[class_ := how];
      byName := byName[class_.name := class_];
      accepted := true;
    }

    method Stock(key: Key, how: Registration) returns (accepted: bool)
      requires Linked() && Valid()
      modifies this`services, this`byName
      ensures var change := old(DoctorRegistry.Stock(Own(), key, how));
        accepted == change.Accepted? && Own() == if accepted then change.reg else old(Own())
      ensures Valid()
    {
      IndexStaysSound(Own(), key, how);
      assert parent != null ==> this !in parent.Line();
      if key.Class? && key in services { return false; }
      if key.name in byName { return false; }
      services := services[key := how];
      byName := byName[key.name := key];
      accepted := true;
    }

    /** Revokes what `target` stands for here; ancestors keep theirs. */
    method Revoke(target: Target) returns (removed: bool)
      requires Linked() && Valid()
      modifies this`services, this`byName, this`singletons, this`scopes
      ensures var key := old(Find(Own(), target));
        match key
        case None => !removed && Own() == old(Own()) && Kept() == old(Kept())
        case Some(k) => removed == (k in old(services)) && Own() == Revoked(old(Own()), k) && Kept() == Cleared(old(Kept()), k)
      ensures Valid()
    {
      var key := match target
        case ByKey(k) => Some(k)
        case ByName(name) => if name in byName then Some(byName[name]) else None;
      if key.None? { return false; }
      IndexStaysSound(Own(), key.value, Registration(SINGLETON, [], false));
      assert parent != null ==> this !in parent.Line();
      removed := key.value in services;
      Forget(key.value);
      services := services - {key.value};
      if key.value.name in byName && byName[key.value.name] == key.value {
        byName := byName - {key.value.name};
      }
    }

    /** Drops every instance cached here for `key`. */
    method Forget(key: Key)
      requires Linked() && Valid()
      modifies this`singletons, this`scopes
      ensures Valid()
      ensures Kept() == Cleared(old(Kept()), key)
    {
      singletons := singletons - {key};
      scopes := map n | n in scopes :: scopes[n] - {key};
    }

    // ----- read-through -----

    function FindRegistration(key: Key): (found: Option<Registration>)
      requires Linked()
      reads Line()`services, Line()`byName
      ensures found == if key in View().services then Some(View().services[key]) else None
      decreases depth
    {
      if key in services then Some(services[key])
      else if parent == null then None
      else parent.FindRegistration(key)
    }

    function FindKey(name: string): (found: Option<Key>)
      requires Linked()
      reads Line()`services, Line()`byName
      ensures found == Find(View(), ByName(name))
      decreases depth
    {
      if name in byName then Some(byName[name])
      else if parent == null then None
      else parent.FindKey(name)
    }

    // ----- resolution -----

    /** `__dispenseKey`: the ambient window and the scope rollback around one resolution. */
    method DispenseKey(key: Key, scope: Option<string>, ambient: Ambient) returns (outcome: Outcome)
      requires Linked()
      modifies this`singletons, this`scopes, this`resolving, this`made, ambient
      ensures (Kept(), outcome) == old(Dispense(View(), Kept(), key, scope))
      ensures View() == old(View()) && ambient.scopes == old(ambient.scopes) && ambient.containers == old(ambient.containers)
      decreases Unstarted(View(), Kept()), 2
    {
      hide Construct, View, Unstarted;
      var owned := scope.Some? && scope.value !in scopes;
      ambient.containers := ambient.containers + [this];
      ambient.scopes := ambient.scopes + [scope];
      outcome := ConstructKey(key, scope, ambient);
      if outcome.Failed? && owned { scopes := scopes - {scope.value}; }
      ambient.scopes := ambient.scopes[..|ambient.scopes| - 1];
      ambient.containers := ambient.containers[..|ambient.containers| - 1];
    }

    /** `__dispense`: one branch for each lifecycle. */
    method ConstructKey(key: Key, scope: Option<string>, ambient: Ambient) returns (outcome: Outcome)
      requires Linked() && Under(ambient, scope)
      modifies this`singletons, this`scopes, this`resolving, this`made, ambient
      ensures (Kept(), outcome) == old(Construct(View(), Kept(), key, scope))
      ensures View() == old(View()) && ambient.scopes == old(ambient.scopes) && ambient.containers == old(ambient.containers)
      decreases Unstarted(View(), Kept()), 1
    {
      hide Make, View;
      var found := FindRegistration(key);
      if found.None? { return Failed(Unregistered); }
      match found.value.mode {
        case SINGLETON =>
          if key in singletons { return Built(singletons[key]); }
          outcome := Guarded(key, found.value, scope, ambient);
          if outcome.Built? { singletons := singletons[key := outcome.instance]; }
        case SCOPED =>
          if scope.None? || scope.value == "" { return Failed(ScopeRequired); }
          var name := scope.value;
          if name !in scopes { scopes := scopes[name := map[]]; }
          if key in scopes[name] { return Built(scopes[name][key]); }
          outcome := Guarded(key, found.value, scope, ambient);
          if outcome.Built? { scopes := scopes[name := Put(scopes[name], key, outcome.instance)]; }
        case TRANSIENT =>
          outcome := Guarded(key, found.value, scope, ambient);
      }
    }

    /** The cycle guard, and the factory call with the key marked in flight. */
    method Guarded(key: Key, how: Registration, scope: Option<string>, ambient: Ambient) returns (outcome: Outcome)
      requires Linked() && Under(ambient, scope) && key in View().services && how == View().services[key]
      modifies this`singletons, this`scopes, this`resolving, this`made, ambient
      ensures (Kept(), outcome) == old(Make(View(), Kept(), key, scope))
      ensures View() == old(View()) && ambient.scopes == old(ambient.scopes) && ambient.containers == old(ambient.containers)
      decreases Unstarted(View(), Kept()), 0
    {
      hide RunFactory, View;
      if key in resolving { return Failed(Circular); }
      Started(View(), Kept(), key);
      resolving := resolving + {key};
      outcome := Factory(how.doses, how.throws, scope, ambient);
      resolving := resolving - {key};
    }

    /** This container and `scope` are on top of the ambient stacks. */
    ghost predicate Under(ambient: Ambient, scope: Option<string>)
      reads ambient
    {
      && |ambient.containers| > 0 && ambient.containers[|ambient.containers| - 1] == this
      && |ambient.scopes| > 0 && ambient.scopes[|ambient.scopes| - 1] == scope
    }

    method Factory(doses: seq<Dose>, throws: bool, ghost scope: Option<string>, ambient: Ambient) returns (outcome: Outcome)
      requires Linked() && Under(ambient, scope)
      modifies this`singletons, this`scopes, this`resolving, this`made, ambient
      ensures (Kept(), outcome) == old(RunFactory(View(), Kept(), doses, throws, scope))
      ensures View() == old(View()) && ambient.scopes == old(ambient.scopes) && ambient.containers == old(ambient.containers)
      decreases Unstarted(View(), Kept()), |doses| + 4
    {
      hide Inject, View;
      if doses == [] {
        if throws { return Failed(FactoryThrew); }
        made := made + 1;
        return Built(made - 1);
      }
      outcome := Injected(doses[0], scope, ambient);
      if outcome.Failed? && !doses[0].caught { return; }
      outcome := Factory(doses[1..], throws, scope, ambient);
    }

    /** `inject` of `inject.ts`: the ambient container, and the ambient scope unless the call names one. */
    method Injected(dose: Dose, ghost scope: Option<string>, ambient: Ambient) returns (outcome: Outcome)
      requires Linked() && Under(ambient, scope)
      modifies this`singletons, this`scopes, this`resolving, this`made, ambient
      ensures (Kept(), outcome) == old(Inject(View(), Kept(), dose, scope))
      ensures View() == old(View()) && ambient.scopes == old(ambient.scopes) && ambient.containers == old(ambient.containers)
      decreases Unstarted(View(), Kept()), 3
    {
      hide Dispense, View;
      var container := ambient.containers[|ambient.containers| - 1];
      var effective := if dose.scope.Some? then dose.scope else ambient.scopes[|ambient.scopes| - 1];
      match dose.target
      case ByKey(key) =>
        outcome := container.DispenseKey(key, effective, ambient);
      case ByName(name) =>
        var key := container.FindKey(name);
        if key.None? { return Failed(Unregistered); }
        outcome := container.DispenseKey(key.value, effective, ambient);
    }

    /** `resolve`: only this container's own registration may supply a factory; otherwise a bare `new`. */
    method Resolve(class_: Key, bare: Registration, scope: Option<string>, ambient: Ambient) returns (outcome: Outcome)
      requires Linked()
      modifies this`singletons, this`scopes, this`resolving, this`made, ambient
      ensures var how := old(if class_ in services then services[class_] else bare);
        (Kept(), outcome) == old(DoctorModel.Resolve(View(), Kept(), how.doses, how.throws, scope))
      ensures View() == old(View()) && ambient.scopes == old(ambient.scopes) && ambient.containers == old(ambient.containers)
    {
      hide RunFactory, View;
      var owned := scope.Some? && scope.value !in scopes;
      ambient.containers := ambient.containers + [this];
      ambient.scopes := ambient.scopes + [scope];
      var how := if class_ in services then services[class_] else bare;
      outcome := Factory(how.doses, how.throws, scope, ambient);
      if outcome.Failed? && owned { scopes := scopes - {scope.value}; }
      ambient.scopes := ambient.scopes[..|ambient.scopes| - 1];
      ambient.containers := ambient.containers[..|ambient.containers| - 1];
    }
  }
}
