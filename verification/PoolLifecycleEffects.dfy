/** What each stretch of `connect` and `disconnect` does to the engine and its pool. */
module PoolLifecycleEffects {
  import opened PoolModel
  import opened PoolTheorems
  import opened PoolEffects
  import opened PoolLifecycle

  /** The tasks that were not there before. */
  ghost predicate New(awaits: set<Id>, s: State, s': State) {
    forall t :: t in awaits <==> t in s'.tasks && t !in s.tasks
  }

  /** A CLOSED engine connects: it lets acquirers in, starts the factory calls missing to the pool's floor, and awaits
      exactly those. In any other state `connect` does nothing. */
  lemma ConnectOpensAndWarms(h: Host)
    requires Sound(h)
    ensures var h' := Next(h, MConnect);
      if h.status != CLOSED then h' == h
      else
        var open, need := h.pool.(draining := false), h.pool.cfg.min - (|h.pool.idle| + |h.pool.active| + h.pool.pending + |h.pool.handoff|);
        && Started(open, h'.pool, if need <= 0 then 0 else need, ForWarmth)
        && h'.status == CONNECTING && h'.nextCall == h.nextCall + 1 && h'.failed == h.failed
        && h.nextCall in h'.calls && h'.calls == h.calls[h.nextCall := h'.calls[h.nextCall]]
        && h'.calls[h.nextCall].Warming? && New(h'.calls[h.nextCall].awaits, h.pool, h'.pool)
  {
    hide Reached, EnsureMin, Step, Started;
    StepFacts(h.pool);
    StepFacts(h.pool.(draining := false));
    ReachedStep(h.pool, EReopen);
    WarmUpFillsToTheFloor(h.pool.(draining := false));
  }

  /** A warm-up that succeeded makes the engine READY, unless the pool drains by then. Otherwise, and when it failed, the
      pool is drained, and `connect` awaits its drain. */
  lemma WarmUpDecides(h: Host, c: nat, ok: bool)
    requires CanMove(h, MWarmed(c, ok))
    ensures var h' := Next(h, MWarmed(c, ok));
      if ok && !h.pool.draining then h' == h.(calls := h.calls - {c}, status := READY)
      else
        && c in h'.calls && h' == h.(pool := Step(h.pool, EDrain), calls := h.calls[c := h'.calls[c]])
        && (if ok then h'.calls[c].Retreating? else h'.calls[c].Failing?)
        && New(h'.calls[c].awaits, h.pool, h'.pool)
  {
    hide Drain, EnsureMin, Step;
    StepFacts(h.pool);
  }

  /** Whoever awaited a drain sets CLOSED when its loop is over. */
  lemma DrainClosesTheEngine(h: Host, c: nat)
    requires CanMove(h, MClosed(c))
    ensures Next(h, MClosed(c)) == h.(calls := h.calls - {c}, status := CLOSED)
  {
  }

  /** An engine that is not CLOSED drains its pool on `disconnect`; a CLOSED one does nothing. */
  lemma DisconnectDrains(h: Host)
    ensures var h' := Next(h, MDisconnect);
      if h.status == CLOSED then h' == h
      else
        && h.nextCall in h'.calls && h'.calls[h.nextCall].Disconnecting? && New(h'.calls[h.nextCall].awaits, h.pool, h'.pool)
        && h' == h.(pool := Step(h.pool, EDrain), calls := h.calls[h.nextCall := h'.calls[h.nextCall]], nextCall := h.nextCall + 1)
  {
    hide Drain, EnsureMin, Step;
    StepFacts(h.pool);
  }

  /** A factory call that fails fails the warm-up that awaits it; nothing else of the pool's does. */
  lemma PoolMovesAreThePools(h: Host, e: Event)
    requires CanMove(h, MPool(e))
    ensures Next(h, MPool(e)) == h.(pool := Step(h.pool, e), failed := if e.ECreated? && !e.ok then h.failed + {e.t} else h.failed)
  {
    hide Step;
  }
}
