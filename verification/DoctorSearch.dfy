/** Resolution as a search: which dispenses succeed, and exactly what they cache, over any dependency graph of
    singletons whose factories neither throw nor catch. */
module DoctorSearch {
  import opened DoctorModel

  /** The key a target stands for; a name the index does not know stands for a label nobody stocked. */
  function Meant(reg: Registry, target: Target): Key {
    match Find(reg, target)
    case Some(key) => key
    case None => Label(target.name)
  }

  function Wanted(reg: Registry, doses: seq<Dose>): (keys: seq<Key>)
    ensures |keys| == |doses|
    ensures forall i :: 0 <= i < |keys| ==> keys[i] == Meant(reg, doses[i].target)
  {
    if doses == [] then [] else [Meant(reg, doses[0].target)] + Wanted(reg, doses[1..])
  }

  predicate Uncaught(doses: seq<Dose>) {
    forall d :: d in doses ==> !d.caught
  }

  ghost predicate Plain(reg: Registry) {
    && (forall k :: k in reg.services ==>
          reg.services[k].mode == SINGLETON && !reg.services[k].throws && Uncaught(reg.services[k].doses))
    && (forall n :: Label(n) in reg.services ==> n in reg.byName)
  }

  /** `from` gets built, and building it wants `to`. */
  predicate Edge(reg: Registry, cached: set<Key>, from: Key, to: Key) {
    from in reg.services && from !in cached && to in Wanted(reg, reg.services[from].doses)
  }

  predicate Trail(reg: Registry, cached: set<Key>, path: seq<Key>) {
    && |path| > 0
    && forall i :: 0 < i < |path| ==> Edge(reg, cached, path[i - 1], path[i])
  }

  /** The trail ends where resolution cannot go on: nothing registered, or back at a key still being built. */
  predicate DeadEnd(reg: Registry, cached: set<Key>, flying: set<Key>, path: seq<Key>)
    requires |path| > 0
  {
    var last := path[|path| - 1];
    last !in reg.services || (last !in cached && (last in flying || last in path[..|path| - 1]))
  }

  predicate BadTrail(reg: Registry, cached: set<Key>, flying: set<Key>, starts: seq<Key>, path: seq<Key>) {
    Trail(reg, cached, path) && path[0] in starts && DeadEnd(reg, cached, flying, path)
  }

  ghost predicate Reachable(reg: Registry, cached: set<Key>, starts: seq<Key>, key: Key) {
    exists path :: Trail(reg, cached, path) && path[0] in starts && path[|path| - 1] == key
  }

  /** Some way down from `key` cannot be resolved. */
  ghost predicate Hopeless(reg: Registry, sh: Shelf, key: Key) {
    exists path :: BadTrail(reg, sh.singletons.Keys, sh.resolving, [key], path)
  }

  ghost predicate Ready(reg: Registry, sh: Shelf) {
    Plain(reg) && sh.resolving !! sh.singletons.Keys
  }

  /** Construction order: each key's dependencies were cached at the outset or come before it. */
  ghost predicate Ordered(reg: Registry, cached: set<Key>, flying: set<Key>, order: seq<Key>) {
    forall i :: 0 <= i < |order| ==> Placed(reg, cached, flying, order[..i], order[i])
  }

  predicate Placed(reg: Registry, cached: set<Key>, flying: set<Key>, before: seq<Key>, key: Key) {
    && key in reg.services && key !in cached && key !in flying && key !in before
    && forall k :: k in Wanted(reg, reg.services[key].doses) ==> k in reg.services && (k in cached || k in before)
  }

  ghost predicate FromStarts(reg: Registry, cached: set<Key>, starts: seq<Key>, order: seq<Key>) {
    forall k :: k in order ==> Reachable(reg, cached, starts, k)
  }

  /** What a search did: it built `order`, and either has all it started from or found `path` dead. */
  ghost predicate Explored(reg: Registry, sh: Shelf, starts: seq<Key>, after: Shelf, outcome: Outcome, order: seq<Key>, path: seq<Key>) {
    && after.resolving == sh.resolving && after.scopes == sh.scopes
    && (forall k :: k in after.singletons <==> k in sh.singletons || k in order)
    && Ordered(reg, sh.singletons.Keys, sh.resolving, order)
    && FromStarts(reg, sh.singletons.Keys, starts, order)
    && (outcome.Built? ==> forall k :: k in starts ==> k in reg.services && k in after.singletons)
    && (outcome.Failed? ==> BadTrail(reg, sh.singletons.Keys, sh.resolving, starts, path))
  }

  lemma Appended(reg: Registry, cached: set<Key>, flying: set<Key>, order: seq<Key>, more: seq<Key>, cached': set<Key>)
    requires Ordered(reg, cached, flying, order)
    requires Ordered(reg, cached', flying, more)
    requires forall k :: k in cached' <==> k in cached || k in order
    ensures Ordered(reg, cached, flying, order + more)
  {
    var both := order + more;
    forall i | 0 <= i < |both| ensures Placed(reg, cached, flying, both[..i], both[i]) {
      if i < |order| {
        assert both[..i] == order[..i];
      } else {
        assert both[..i] == order + more[..i - |order|];
        assert Placed(reg, cached', flying, more[..i - |order|], more[i - |order|]);
      }
    }
  }

  /** A trail past a larger cache is a trail past a smaller one. */
  lemma Loosened(reg: Registry, cached: set<Key>, cached': set<Key>, path: seq<Key>)
    requires Trail(reg, cached', path) && cached <= cached'
    ensures Trail(reg, cached, path)
  {
    forall i | 0 < i < |path| ensures Edge(reg, cached, path[i - 1], path[i]) {
      assert Edge(reg, cached', path[i - 1], path[i]);
    }
  }

  lemma LoosenedBad(reg: Registry, cached: set<Key>, cached': set<Key>, flying: set<Key>, starts: seq<Key>, starts': seq<Key>, path: seq<Key>)
    requires BadTrail(reg, cached', flying, starts', path) && cached <= cached'
    requires forall k :: k in starts' ==> k in starts
    ensures BadTrail(reg, cached, flying, starts, path)
  {
    Loosened(reg, cached, cached', path);
  }

  lemma LoosenedStarts(reg: Registry, cached: set<Key>, cached': set<Key>, starts: seq<Key>, starts': seq<Key>, order: seq<Key>)
    requires FromStarts(reg, cached', starts', order) && cached <= cached'
    requires forall k :: k in starts' ==> k in starts
    ensures FromStarts(reg, cached, starts, order)
  {
    forall k | k in order ensures Reachable(reg, cached, starts, k) {
      var path :| Trail(reg, cached', path) && path[0] in starts' && path[|path| - 1] == k;
      Loosened(reg, cached, cached', path);
    }
  }

  lemma Lengthened(reg: Registry, cached: set<Key>, key: Key, path: seq<Key>)
    requires key in reg.services && key !in cached
    requires Trail(reg, cached, path) && path[0] in Wanted(reg, reg.services[key].doses)
    ensures var long := [key] + path;
      Trail(reg, cached, long) && long[0] == key && long[|long| - 1] == path[|path| - 1]
  {
    hide Wanted, Edge;
    var long := [key] + path;
    forall i | 0 < i < |long| ensures Edge(reg, cached, long[i - 1], long[i]) {
      if i > 1 {
        assert Edge(reg, cached, path[i - 2], path[i - 1]);
      } else {
        FirstEdge(reg, cached, key, path[0]);
      }
    }
  }

  lemma FirstEdge(reg: Registry, cached: set<Key>, from: Key, target: Key)
    requires from in reg.services && from !in cached && target in Wanted(reg, reg.services[from].doses)
    ensures Edge(reg, cached, from, target)
  {
  }

  lemma Here(reg: Registry, cached: set<Key>, key: Key)
    ensures Reachable(reg, cached, [key], key)
  {
    assert Trail(reg, cached, [key]);
  }

  /** The search below `key`, seen from `key`: what it reached, and the dead end it met. */
  lemma SurfacedStarts(reg: Registry, cached: set<Key>, key: Key, order: seq<Key>)
    requires key in reg.services && key !in cached
    requires FromStarts(reg, cached, Wanted(reg, reg.services[key].doses), order)
    ensures FromStarts(reg, cached, [key], order) && FromStarts(reg, cached, [key], order + [key])
  {
    hide Reachable, Wanted;
    forall k | k in order ensures Reachable(reg, cached, [key], k) {
      ReachedThrough(reg, cached, key, k);
    }
    Here(reg, cached, key);
  }

  lemma ReachedThrough(reg: Registry, cached: set<Key>, key: Key, k: Key)
    requires key in reg.services && key !in cached
    requires Reachable(reg, cached, Wanted(reg, reg.services[key].doses), k)
    ensures Reachable(reg, cached, [key], k)
  {
    hide Wanted;
    var down :| Trail(reg, cached, down) && down[0] in Wanted(reg, reg.services[key].doses) && down[|down| - 1] == k;
    hide Edge;
    Lengthened(reg, cached, key, down);
  }

  lemma SurfacedBad(reg: Registry, cached: set<Key>, flying: set<Key>, key: Key, path: seq<Key>)
    requires key in reg.services && key !in cached
    requires BadTrail(reg, cached, flying + {key}, Wanted(reg, reg.services[key].doses), path)
    ensures BadTrail(reg, cached, flying, [key], [key] + path)
  {
    Lengthened(reg, cached, key, path);
    hide Trail, Wanted;
    var long := [key] + path;
    assert long[..|long| - 1] == [key] + path[..|path| - 1];
  }

  /** With no scope touched, there is nothing to roll back. */
  lemma NoRollback(reg: Registry, sh: Shelf, key: Key, scope: Option<string>)
    requires Construct(reg, sh, key, scope).0.scopes == sh.scopes
    ensures Dispense(reg, sh, key, scope) == Construct(reg, sh, key, scope)
  {
    hide Construct;
    var after := Construct(reg, sh, key, scope).0;
    if scope.Some? && scope.value !in sh.scopes {
      assert after.scopes - {scope.value} == after.scopes;
    }
  }

  lemma {:induction false} SearchKey(reg: Registry, sh: Shelf, key: Key, scope: Option<string>) returns (order: seq<Key>, path: seq<Key>)
    requires Ready(reg, sh)
    ensures Explored(reg, sh, [key], Dispense(reg, sh, key, scope).0, Dispense(reg, sh, key, scope).1, order, path)
    decreases Unstarted(reg, sh), 2
  {
    order, path := [], [key];
    if key !in reg.services || key in sh.singletons || key in sh.resolving { NoRollback(reg, sh, key, scope); }
    if key in reg.services && key !in sh.singletons {
      if key in sh.resolving {
        assert BadTrail(reg, sh.singletons.Keys, sh.resolving, [key], path);
      } else {
        order, path := SearchBelow(reg, sh, key, scope);
      }
    } else if key !in reg.services {
      assert BadTrail(reg, sh.singletons.Keys, sh.resolving, [key], path);
    }
  }

  lemma {:induction false} SearchBelow(reg: Registry, sh: Shelf, key: Key, scope: Option<string>) returns (order: seq<Key>, path: seq<Key>)
    requires Ready(reg, sh) && key in reg.services && key !in sh.singletons && key !in sh.resolving
    ensures Explored(reg, sh, [key], Dispense(reg, sh, key, scope).0, Dispense(reg, sh, key, scope).1, order, path)
    decreases Unstarted(reg, sh), 1
  {
    Started(reg, sh, key);
    var inner := sh.(resolving := sh.resolving + {key});
    var doses := reg.services[key].doses;
    var below, down := SearchDoses(reg, inner, doses, scope);
    var (after, outcome) := RunFactory(reg, inner, doses, false, scope);
    order, path := if outcome.Built? then below + [key] else below, [key] + down;
    SurfacedStarts(reg, sh.singletons.Keys, key, below);
    if outcome.Failed? { SurfacedBad(reg, sh.singletons.Keys, sh.resolving, key, down); }
    Unguarded(reg, sh, key, below, order);
    BelowIsConstruct(reg, sh, key, scope);
    NoRollback(reg, sh, key, scope);
    if outcome.Built? { Topped(reg, sh, key, after, outcome, below, down, order, path); }
    hide RunFactory, Construct, Dispense, Reachable, FromStarts, BadTrail, Ordered, Ready, Wanted;
  }

  lemma Topped(reg: Registry, sh: Shelf, key: Key, after: Shelf, outcome: Outcome, below: seq<Key>, down: seq<Key>, order: seq<Key>, path: seq<Key>)
    requires key in reg.services && key !in sh.singletons && outcome.Built? && order == below + [key]
    requires Explored(reg, sh.(resolving := sh.resolving + {key}), Wanted(reg, reg.services[key].doses), after, outcome, below, down)
    requires Ordered(reg, sh.singletons.Keys, sh.resolving, order)
    requires after.resolving - {key} == sh.resolving
    ensures Explored(reg, sh, [key], after.(resolving := after.resolving - {key}, singletons := after.singletons[key := outcome.instance]), outcome, order, path)
  {
    hide Reachable, FromStarts, BadTrail, Ordered, Wanted;
    SurfacedStarts(reg, sh.singletons.Keys, key, below);
  }

  lemma BelowIsConstruct(reg: Registry, sh: Shelf, key: Key, scope: Option<string>)
    requires Plain(reg) && key in reg.services && key !in sh.singletons && key !in sh.resolving
    ensures var inner := sh.(resolving := sh.resolving + {key});
            var (after, outcome) := RunFactory(reg, inner, reg.services[key].doses, false, scope);
            var done := after.(resolving := after.resolving - {key});
      Construct(reg, sh, key, scope) ==
        (if outcome.Built? then done.(singletons := done.singletons[key := outcome.instance]) else done, outcome)
  {
    hide RunFactory;
  }

  lemma NotBelowItself(reg: Registry, cached: set<Key>, flying: set<Key>, order: seq<Key>, key: Key)
    requires Ordered(reg, cached, flying, order) && key in flying
    ensures key !in order
  {
    forall j | 0 <= j < |order| ensures order[j] != key {
      assert Placed(reg, cached, flying, order[..j], order[j]);
    }
  }

  lemma Unguarded(reg: Registry, sh: Shelf, key: Key, below: seq<Key>, order: seq<Key>)
    requires key in reg.services && key !in sh.singletons && key !in sh.resolving
    requires Ordered(reg, sh.singletons.Keys, sh.resolving + {key}, below)
    requires order == below || (order == below + [key] && forall k :: k in Wanted(reg, reg.services[key].doses) ==> k in reg.services && (k in sh.singletons || k in below))
    ensures Ordered(reg, sh.singletons.Keys, sh.resolving, order)
  {
    forall i | 0 <= i < |order| ensures Placed(reg, sh.singletons.Keys, sh.resolving, order[..i], order[i]) {
      assert order[..i] == below[..i];
      if i < |below| {
        assert Placed(reg, sh.singletons.Keys, sh.resolving + {key}, below[..i], below[i]);
      } else if key in below {
        NotBelowItself(reg, sh.singletons.Keys, sh.resolving + {key}, below, key);
        assert false;
      }
    }
  }

  lemma {:induction false} SearchDoses(reg: Registry, sh: Shelf, doses: seq<Dose>, ambient: Option<string>) returns (order: seq<Key>, path: seq<Key>)
    requires Ready(reg, sh) && Uncaught(doses)
    ensures var (after, outcome) := RunFactory(reg, sh, doses, false, ambient);
      Explored(reg, sh, Wanted(reg, doses), after, outcome, order, path)
    decreases Unstarted(reg, sh), |doses| + 4
  {
    order, path := [], [];
    if doses != [] {
      var key := Meant(reg, doses[0].target);
      order, path := SearchDose(reg, sh, doses[0], ambient);
      var (mid, first) := Inject(reg, sh, doses[0], ambient);
      if first.Failed? {
        LoosenedBad(reg, sh.singletons.Keys, sh.singletons.Keys, sh.resolving, Wanted(reg, doses), [key], path);
        LoosenedStarts(reg, sh.singletons.Keys, sh.singletons.Keys, Wanted(reg, doses), [key], order);
      } else {
        StillReady(reg, sh, mid, [key], first, order, path);
        var more, dead := SearchDoses(reg, mid, doses[1..], ambient);
        var (after, outcome) := RunFactory(reg, mid, doses[1..], false, ambient);
        Chained(reg, sh, mid, after, first, outcome, order, path, more, dead, doses);
        order, path := order + more, dead;
      }
    }
    hide Inject, Explored, Ready, Wanted;
    EmptySearch(reg, sh, ambient);
  }

  lemma EmptySearch(reg: Registry, sh: Shelf, ambient: Option<string>)
    ensures var (after, outcome) := RunFactory(reg, sh, [], false, ambient);
      Explored(reg, sh, Wanted(reg, []), after, outcome, [], [])
  {
  }

  lemma StillReady(reg: Registry, sh: Shelf, mid: Shelf, starts: seq<Key>, outcome: Outcome, order: seq<Key>, path: seq<Key>)
    requires Ready(reg, sh) && Explored(reg, sh, starts, mid, outcome, order, path)
    ensures Ready(reg, mid) && mid.resolving == sh.resolving
  {
    forall k | k in mid.singletons ensures k !in mid.resolving {
      if k in order {
        var i :| 0 <= i < |order| && order[i] == k;
        assert Placed(reg, sh.singletons.Keys, sh.resolving, order[..i], order[i]);
      }
    }
  }

  lemma Chained(reg: Registry, sh: Shelf, mid: Shelf, after: Shelf, first: Outcome, outcome: Outcome,
                order: seq<Key>, path: seq<Key>, more: seq<Key>, dead: seq<Key>, doses: seq<Dose>)
    requires doses != [] && first.Built?
    requires Explored(reg, sh, [Meant(reg, doses[0].target)], mid, first, order, path)
    requires Explored(reg, mid, Wanted(reg, doses[1..]), after, outcome, more, dead)
    ensures Explored(reg, sh, Wanted(reg, doses), after, outcome, order + more, dead)
  {
    hide Ordered, BadTrail, FromStarts, Wanted;
    var starts := Wanted(reg, doses);
    WantedUnrolls(reg, doses);
    assert sh.singletons.Keys <= mid.singletons.Keys;
    Appended(reg, sh.singletons.Keys, sh.resolving, order, more, mid.singletons.Keys);
    LoosenedStarts(reg, sh.singletons.Keys, sh.singletons.Keys, starts, [Meant(reg, doses[0].target)], order);
    LoosenedStarts(reg, sh.singletons.Keys, mid.singletons.Keys, starts, Wanted(reg, doses[1..]), more);
    if outcome.Failed? {
      LoosenedBad(reg, sh.singletons.Keys, mid.singletons.Keys, sh.resolving, starts, Wanted(reg, doses[1..]), dead);
    }
    FromStartsJoin(reg, sh.singletons.Keys, starts, order, more);
    Cached(sh, mid, after, order, more);
  }

  lemma WantedUnrolls(reg: Registry, doses: seq<Dose>)
    requires doses != []
    ensures Wanted(reg, doses) == [Meant(reg, doses[0].target)] + Wanted(reg, doses[1..])
  {
  }

  lemma FromStartsJoin(reg: Registry, cached: set<Key>, starts: seq<Key>, order: seq<Key>, more: seq<Key>)
    requires FromStarts(reg, cached, starts, order) && FromStarts(reg, cached, starts, more)
    ensures FromStarts(reg, cached, starts, order + more)
  {
    hide Reachable;
  }

  lemma Cached(sh: Shelf, mid: Shelf, after: Shelf, order: seq<Key>, more: seq<Key>)
    requires forall k :: k in mid.singletons <==> k in sh.singletons || k in order
    requires forall k :: k in after.singletons <==> k in mid.singletons || k in more
    ensures forall k :: k in after.singletons <==> k in sh.singletons || k in order + more
  {
  }

  lemma {:induction false} SearchDose(reg: Registry, sh: Shelf, dose: Dose, ambient: Option<string>) returns (order: seq<Key>, path: seq<Key>)
    requires Ready(reg, sh)
    ensures var (after, outcome) := Inject(reg, sh, dose, ambient);
      Explored(reg, sh, [Meant(reg, dose.target)], after, outcome, order, path)
    decreases Unstarted(reg, sh), 3
  {
    if Find(reg, dose.target).Some? {
      order, path := SearchKey(reg, sh, Find(reg, dose.target).value, if dose.scope.Some? then dose.scope else ambient);
    } else {
      order, path := [], [Meant(reg, dose.target)];
      assert Trail(reg, sh.singletons.Keys, path);
      hide Dispense;
    }
  }

  // ----- converse: what was built has no dead end below it -----

  predicate Before(order: seq<Key>, a: Key, b: Key) {
    exists i, j :: 0 <= i < j < |order| && order[i] == a && order[j] == b
  }

  /** One step down from a built key lands on something registered that was cached or built earlier. */
  lemma StepDown(reg: Registry, cached: set<Key>, flying: set<Key>, order: seq<Key>, i: nat, to: Key)
    requires Ordered(reg, cached, flying, order) && i < |order| && Edge(reg, cached, order[i], to)
    ensures to in reg.services && (to in cached || exists j: nat :: j < i && order[j] == to)
  {
    assert Placed(reg, cached, flying, order[..i], order[i]);
  }

  /** Along a trail from `order[at]` through built keys, position in the order strictly falls. */
  lemma {:induction false} Descends(reg: Registry, cached: set<Key>, flying: set<Key>, order: seq<Key>, at: nat, path: seq<Key>) returns (end: nat)
    requires Ordered(reg, cached, flying, order) && at < |order|
    requires Trail(reg, cached, path) && path[0] == order[at]
    ensures path[|path| - 1] in reg.services
    ensures path[|path| - 1] !in cached ==> end <= at && path[|path| - 1] == order[end] && (|path| > 1 ==> end < at)
    decreases |path|
  {
    if |path| == 1 {
      end := at;
      assert Placed(reg, cached, flying, order[..at], order[at]);
    } else {
      assert Edge(reg, cached, path[0], path[1]);
      StepDown(reg, cached, flying, order, at, path[1]);
      if path[1] in cached {
        end := 0;
        assert |path| > 2 ==> Edge(reg, cached, path[1], path[2]);
      } else {
        var j: nat :| j < at && order[j] == path[1];
        assert forall i :: 0 < i < |path[1..]| ==> Edge(reg, cached, path[1..][i - 1], path[1..][i]) by {
          forall i | 0 < i < |path[1..]| ensures Edge(reg, cached, path[1..][i - 1], path[1..][i]) {
            assert Edge(reg, cached, path[i], path[i + 1]);
          }
        }
        end := Descends(reg, cached, flying, order, j, path[1..]);
      }
    }
  }

  lemma Sliced(reg: Registry, cached: set<Key>, path: seq<Key>, i: nat)
    requires Trail(reg, cached, path) && i < |path|
    ensures Trail(reg, cached, path[i..]) && Trail(reg, cached, path[..i + 1])
  {
    var tail, head := path[i..], path[..i + 1];
    forall j | 0 < j < |tail| ensures Edge(reg, cached, tail[j - 1], tail[j]) {
      assert Edge(reg, cached, path[i + j - 1], path[i + j]);
    }
    forall j | 0 < j < |head| ensures Edge(reg, cached, head[j - 1], head[j]) {
      assert Edge(reg, cached, path[j - 1], path[j]);
    }
  }

  lemma Unique(reg: Registry, cached: set<Key>, flying: set<Key>, order: seq<Key>, i: nat, j: nat)
    requires Ordered(reg, cached, flying, order) && i < j < |order|
    ensures order[i] != order[j]
  {
    assert Placed(reg, cached, flying, order[..j], order[j]);
    assert order[..j][i] == order[i];
  }

  lemma BuiltHasNoDeadEnd(reg: Registry, cached: set<Key>, flying: set<Key>, order: seq<Key>, at: nat, path: seq<Key>)
    requires Ordered(reg, cached, flying, order) && at < |order|
    ensures !BadTrail(reg, cached, flying, [order[at]], path)
  {
    if BadTrail(reg, cached, flying, [order[at]], path) {
      var end := Descends(reg, cached, flying, order, at, path);
      assert Placed(reg, cached, flying, order[..end], order[end]);
      var last := path[|path| - 1];
      var i: nat :| i < |path| - 1 && path[i] == last;
      Sliced(reg, cached, path, i);
      assert path[..i + 1][i] == last;
      var upper := Descends(reg, cached, flying, order, at, path[..i + 1]);
      var lower := Descends(reg, cached, flying, order, upper, path[i..]);
      Unique(reg, cached, flying, order, lower, upper);
    }
  }

  /** Everything reachable from a built key was registered, and cached or built. */
  lemma ReachableIsBuilt(reg: Registry, cached: set<Key>, flying: set<Key>, order: seq<Key>, at: nat, key: Key)
    requires Ordered(reg, cached, flying, order) && at < |order|
    requires Reachable(reg, cached, [order[at]], key)
    ensures key in cached || key in order
  {
    var path :| Trail(reg, cached, path) && path[0] in [order[at]] && path[|path| - 1] == key;
    var end := Descends(reg, cached, flying, order, at, path);
  }

  // ----- result -----

  /** Dispensing succeeds exactly when no way down from the key, through keys not yet cached, ends at something
      unregistered or comes back to a key being built. Success caches exactly the keys on those ways; failure
      caches only keys that would themselves have been dispensed. */
  lemma ResolutionIsExact(reg: Registry, sh: Shelf, key: Key, scope: Option<string>)
    requires Ready(reg, sh)
    ensures var (after, outcome) := Dispense(reg, sh, key, scope);
      && (outcome.Built? <==> !Hopeless(reg, sh, key))
      && (outcome.Built? ==> forall k ::
            k in after.singletons <==> k in sh.singletons || Reachable(reg, sh.singletons.Keys, [key], k))
      && (forall k :: k in after.singletons && k !in sh.singletons ==>
            Reachable(reg, sh.singletons.Keys, [key], k) && !Hopeless(reg, sh, k))
  {
    hide Dispense, Ordered, Reachable, BadTrail;
    var order, path := SearchKey(reg, sh, key, scope);
    var (after, outcome) := Dispense(reg, sh, key, scope);
    var cached := sh.singletons.Keys;
    forall at: nat | at < |order| ensures !Hopeless(reg, sh, order[at]) {
      forall p ensures !BadTrail(reg, cached, sh.resolving, [order[at]], p) {
        BuiltHasNoDeadEnd(reg, cached, sh.resolving, order, at, p);
      }
    }
    if outcome.Built? {
      if key in cached {
        CachedIsAnEnd(reg, sh, key);
        NothingNew(reg, sh, key, scope);
      } else {
        var at: nat :| at < |order| && order[at] == key;
        forall k | Reachable(reg, cached, [key], k) ensures k in after.singletons {
          ReachableIsBuilt(reg, cached, sh.resolving, order, at, k);
        }
      }
    }
  }

  lemma NothingNew(reg: Registry, sh: Shelf, key: Key, scope: Option<string>)
    requires Plain(reg) && key in sh.singletons
    ensures Dispense(reg, sh, key, scope).0.singletons == sh.singletons
  {
  }

  lemma CachedIsAnEnd(reg: Registry, sh: Shelf, key: Key)
    requires key in sh.singletons
    ensures forall k :: Reachable(reg, sh.singletons.Keys, [key], k) ==> k == key
    ensures key in reg.services ==> !Hopeless(reg, sh, key)
  {
    forall path | Trail(reg, sh.singletons.Keys, path) && path[0] in [key] ensures path == [key] {
      assert |path| > 1 ==> Edge(reg, sh.singletons.Keys, path[0], path[1]);
    }
  }
}
