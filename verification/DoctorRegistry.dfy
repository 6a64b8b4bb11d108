/** Registration in `Doctor.ts`: classes are keyed by identity, labels by name, and one name index serves both. */
module DoctorRegistry {
  import opened DoctorModel

  datatype Change = Accepted(reg: Registry) | DuplicateVial

  function NameOf(key: Key): string {
    key.name
  }

  /** A class's own name may be taken over by a later class, never by or from a label. */
  function Prescribe(reg: Registry, class_: Key, how: Registration): Change
    requires class_.Class?
  {
    var name := NameOf(class_);
    if class_ in reg.services || (name in reg.byName && reg.byName[name].Label?) then DuplicateVial
    else Accepted(Entered(reg, class_, how))
  }

  /** Stocking a ready instance under its class, or a value or a factory under a label. */
  function Stock(reg: Registry, key: Key, how: Registration): Change {
    if (key.Class? && key in reg.services) || NameOf(key) in reg.byName then DuplicateVial
    else Accepted(Entered(reg, key, how))
  }

  function Entered(reg: Registry, key: Key, how: Registration): Registry {
    Registry(reg.services[key := how], reg.byName[NameOf(key) := key])
  }

  function Revoked(reg: Registry, key: Key): Registry {
    var name := NameOf(key);
    Registry(reg.services - {key},
             if name in reg.byName && reg.byName[name] == key then reg.byName - {name} else reg.byName)
  }

  /** What `revoke` drops from the caches. */
  function Cleared(sh: Shelf, key: Key): Shelf {
    sh.(singletons := sh.singletons - {key}, scopes := map n | n in sh.scopes :: sh.scopes[n] - {key})
  }

  /** Every name in the index stands for a registration of that name, and a stocked label holds its own name. */
  ghost predicate Indexed(reg: Registry) {
    && (forall n :: n in reg.byName ==> reg.byName[n] in reg.services && NameOf(reg.byName[n]) == n)
    && (forall n :: Label(n) in reg.services ==> n in reg.byName && reg.byName[n] == Label(n))
  }

  /** What is left of that when a child's entries are read over its parent's. */
  ghost predicate Resolvable(reg: Registry) {
    && (forall n :: n in reg.byName ==> reg.byName[n] in reg.services && NameOf(reg.byName[n]) == n)
    && (forall n :: Label(n) in reg.services ==> n in reg.byName)
  }

  /** A child's view: its own entries over its parent's. */
  function Over(parent: Registry, child: Registry): Registry {
    Registry(parent.services + child.services, parent.byName + child.byName)
  }

  /** Whatever is registered or revoked, in one container, the index stays sound. */
  lemma IndexStaysSound(reg: Registry, key: Key, how: Registration)
    requires Indexed(reg)
    ensures key.Class? && Prescribe(reg, key, how).Accepted? ==> Indexed(Prescribe(reg, key, how).reg)
    ensures Stock(reg, key, how).Accepted? ==> Indexed(Stock(reg, key, how).reg)
    ensures Indexed(Revoked(reg, key))
  {
  }

  /** Reading through to a parent keeps every name resolvable, although a child's class may shadow its parent's label. */
  lemma ReadThroughStaysResolvable(parent: Registry, child: Registry)
    requires Resolvable(parent) && Indexed(child)
    ensures Resolvable(Over(parent, child))
  {
    var both := Over(parent, child);
    forall n | n in both.byName ensures both.byName[n] in both.services && NameOf(both.byName[n]) == n {
      if n in child.byName {
        assert both.byName[n] == child.byName[n];
      } else {
        assert both.byName[n] == parent.byName[n];
      }
    }
  }

  /** Revoking a registration and stocking another under the same key is refused exactly when another key has taken
      over its name; once accepted, the replacement is what the name finds. */
  lemma SwapIsAccepted(reg: Registry, key: Key, how: Registration)
    requires Indexed(reg)
    ensures var change := Stock(Revoked(reg, key), key, how);
      && (change.DuplicateVial? <==> NameOf(key) in reg.byName && reg.byName[NameOf(key)] != key)
      && (change.Accepted? ==>
            Find(change.reg, ByName(NameOf(key))) == Some(key) && key in change.reg.services && change.reg.services[key] == how)
  {
  }
}
