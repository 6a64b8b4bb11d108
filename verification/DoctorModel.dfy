/** Resolution in `Doctor.ts`: how one container builds an instance, its dependencies first.

    A factory is the ordered list of what it injects and whether it then throws; `caught` marks an injection whose
    failure the factory catches. Registrations do not change during a resolution. */
module DoctorModel {

  datatype Option<+T> = None | Some(value: T)

  /** What the registry is keyed by: a class by identity, or a label by its name. */
  datatype Key = Class(id: nat, name: string) | Label(name: string)

  datatype Mode = SINGLETON | SCOPED | TRANSIENT

  datatype Target = ByKey(key: Key) | ByName(name: string)
  datatype Dose = Dose(target: Target, scope: Option<string>, caught: bool)
  datatype Registration = Registration(mode: Mode, doses: seq<Dose>, throws: bool)

  type Instance = nat
  datatype Fault = Unregistered | ScopeRequired | Circular | FactoryThrew
  datatype Outcome = Built(instance: Instance) | Failed(fault: Fault)

  /** What a container sees: registrations and the name index, its ancestors' included. */
  datatype Registry = Registry(services: map<Key, Registration>, byName: map<string, Key>)

  /** What a container keeps. `made` numbers instances, so a new one is fresh. */
  datatype Shelf = Shelf(
    singletons: map<Key, Instance>, scopes: map<string, map<Key, Instance>>, resolving: set<Key>, made: nat)

  /** A measure of the work left: registered keys not in flight. */
  function Unstarted(reg: Registry, sh: Shelf): nat {
    |reg.services.Keys - sh.resolving|
  }

  lemma Started(reg: Registry, sh: Shelf, key: Key)
    requires key in reg.services && key !in sh.resolving
    ensures Unstarted(reg, sh.(resolving := sh.resolving + {key})) < Unstarted(reg, sh)
  {
    var rest := reg.services.Keys - (sh.resolving + {key});
    assert reg.services.Keys - sh.resolving == rest + {key};
  }

  /** The key a name or class stands for. */
  function Find(reg: Registry, target: Target): Option<Key> {
    match target
    case ByKey(key) => Some(key)
    case ByName(name) => if name in reg.byName then Some(reg.byName[name]) else None
  }

  function Put(shelf: map<Key, Instance>, key: Key, instance: Instance): map<Key, Instance> {
    shelf[key := instance]
  }

  /** Makes the scope's map reachable before construction starts. */
  function Enter(sh: Shelf, name: string): (sh': Shelf)
    ensures name in sh'.scopes && sh'.scopes[name] == (if name in sh.scopes then sh.scopes[name] else map[])
    ensures sh'.scopes - {name} == sh.scopes - {name}
    ensures sh'.singletons == sh.singletons && sh'.resolving == sh.resolving && sh'.made == sh.made
  {
    if name in sh.scopes then sh else sh.(scopes := sh.scopes[name := map[]])
  }

  /** `__run` around `__dispense`: a failing frame drops the scope it was the first to see missing. */
  function Dispense(reg: Registry, sh: Shelf, key: Key, scope: Option<string>): (r: (Shelf, Outcome))
    ensures r.0.resolving == sh.resolving && sh.scopes.Keys <= r.0.scopes.Keys
    decreases Unstarted(reg, sh), 2
  {
    var owned := scope.Some? && scope.value !in sh.scopes;
    var (after, outcome) := Construct(reg, sh, key, scope);
    (if outcome.Failed? && owned then after.(scopes := after.scopes - {scope.value}) else after, outcome)
  }

  /** `__dispense`. */
  function Construct(reg: Registry, sh: Shelf, key: Key, scope: Option<string>): (r: (Shelf, Outcome))
    ensures r.0.resolving == sh.resolving && sh.scopes.Keys <= r.0.scopes.Keys
    decreases Unstarted(reg, sh), 1
  {
    if key !in reg.services then (sh, Failed(Unregistered))
    else
      match reg.services[key].mode
      case SINGLETON =>
        if key in sh.singletons then (sh, Built(sh.singletons[key]))
        else
          var (after, outcome) := Make(reg, sh, key, scope);
          (if outcome.Built? then after.(singletons := after.singletons[key := outcome.instance]) else after, outcome)
      case SCOPED =>
        if scope.None? || scope.value == "" then (sh, Failed(ScopeRequired))
        else
          var name := scope.value;
          var sh' := Enter(sh, name);
          if key in sh'.scopes[name] then (sh', Built(sh'.scopes[name][key]))
          else
            var (after, outcome) := Make(reg, sh', key, scope);
            (if outcome.Built?
             then after.(scopes := after.scopes[name := Put(after.scopes[name], key, outcome.instance)]) else after, outcome)
      case TRANSIENT => Make(reg, sh, key, scope)
  }

  /** The cycle guard and the factory call, with `key` in flight meanwhile. */
  function Make(reg: Registry, sh: Shelf, key: Key, scope: Option<string>): (r: (Shelf, Outcome))
    requires key in reg.services
    ensures r.0.resolving == sh.resolving && sh.scopes.Keys <= r.0.scopes.Keys
    decreases Unstarted(reg, sh), 0
  {
    if key in sh.resolving then (sh, Failed(Circular))
    else
      Started(reg, sh, key);
      var (after, outcome) := RunFactory(reg, sh.(resolving := sh.resolving + {key}), reg.services[key].doses,
                                         reg.services[key].throws, scope);
      (after.(resolving := after.resolving - {key}), outcome)
  }

  /** The factory injects its doses in order, each under its own scope or else the ambient one. */
  function RunFactory(reg: Registry, sh: Shelf, doses: seq<Dose>, throws: bool, ambient: Option<string>): (r: (Shelf, Outcome))
    ensures r.0.resolving == sh.resolving && sh.scopes.Keys <= r.0.scopes.Keys
    decreases Unstarted(reg, sh), |doses| + 4
  {
    if doses == [] then
      if throws then (sh, Failed(FactoryThrew)) else (sh.(made := sh.made + 1), Built(sh.made))
    else
      var (after, outcome) := Inject(reg, sh, doses[0], ambient);
      if outcome.Failed? && !doses[0].caught then (after, outcome)
      else RunFactory(reg, after, doses[1..], throws, ambient)
  }

  /** `inject` resolving against the container under construction. */
  function Inject(reg: Registry, sh: Shelf, dose: Dose, ambient: Option<string>): (r: (Shelf, Outcome))
    ensures r.0.resolving == sh.resolving && sh.scopes.Keys <= r.0.scopes.Keys
    decreases Unstarted(reg, sh), 3
  {
    var key := Find(reg, dose.target);
    if key.None? then (sh, Failed(Unregistered))
    else Dispense(reg, sh, key.value, if dose.scope.Some? then dose.scope else ambient)
  }

  /** `resolve`: always a fresh construction, with neither cache nor cycle guard of its own. */
  function Resolve(reg: Registry, sh: Shelf, doses: seq<Dose>, throws: bool, scope: Option<string>): (r: (Shelf, Outcome))
    ensures r.0.resolving == sh.resolving && sh.scopes.Keys <= r.0.scopes.Keys
  {
    var owned := scope.Some? && scope.value !in sh.scopes;
    var (after, outcome) := RunFactory(reg, sh, doses, throws, scope);
    (if outcome.Failed? && owned then after.(scopes := after.scopes - {scope.value}) else after, outcome)
  }
}
