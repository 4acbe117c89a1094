/** The health-check coalescer: callers of one check, interleaved at every await. */
module Health {
  import opened Options

  type CallId = nat
  type EventId = nat

  datatype Result = Result(ok: bool, critical: bool)
  datatype Cached = Cached(result: Result, at: real)

  /** A caller carries the `cache_ttl` it captured when its round began. */
  datatype Phase =
    | Looping(ttl: real)
    | WaitingOn(event: EventId, ttl: real)
    | Running(event: EventId, ttl: real)
    | Returned(result: Result, storedAt: real, own: bool, ttl: real, at: real)
    | Gone

  /** `fired` are the events already set; `stores` every result ever cached. */
  datatype State = State(now: real, cached: Option<Cached>, inflight: Option<EventId>, fired: set<EventId>,
                         unused: EventId, callers: map<CallId, Phase>, stores: seq<Cached>)

  datatype Step =
    | Tick(now: real)
    | Loop(c: CallId)
    | Wake(c: CallId)
    | Finish(c: CallId, result: Result)
    | Cancel(c: CallId)

  predicate Fresh(s: State, ttl: real) { ttl > 0.0 && s.cached.Some? && s.now - s.cached.value.at < ttl }

  predicate Enabled(s: State, step: Step) {
    if step.Tick? then s.now <= step.now
    else
      step.c in s.callers &&
      var p := s.callers[step.c];
      match step
      case Tick(_) => true
      case Loop(_) => p.Looping?
      case Wake(_) => p.WaitingOn? && p.event in s.fired
      case Finish(_, _) => p.Running?
      case Cancel(_) => p.Running? || p.WaitingOn?
  }

  function Put(s: State, c: CallId, p: Phase): State { s.(callers := s.callers[c := p]) }

  /** The `finally` of the leader: clear the slot, then set its event. */
  function Stand(s: State, event: EventId): State { s.(inflight := None, fired := s.fired + {event}) }

  function Do(s: State, step: Step): State
    requires Enabled(s, step)
  {
    if step.Tick? then s.(now := step.now)
    else
      var c := step.c;
      var p := s.callers[c];
      match step
      case Tick(_) => s
      case Loop(_) =>
        if Fresh(s, p.ttl) then
          Put(s, c, Returned(s.cached.value.result, s.cached.value.at, false, p.ttl, s.now))
        else if s.inflight.Some? then Put(s, c, WaitingOn(s.inflight.value, p.ttl))
        else Put(s, c, Running(s.unused, p.ttl)).(inflight := Some(s.unused), unused := s.unused + 1)
      case Wake(_) => Put(s, c, Looping(p.ttl))
      case Finish(_, r) =>
        var entry := Cached(r, s.now);
        Put(Stand(s, p.event), c, Returned(r, s.now, true, p.ttl, s.now)).
          (cached := Some(entry), stores := s.stores + [entry])
      case Cancel(_) => Put(if p.Running? then Stand(s, p.event) else s, c, Gone)
  }

  predicate Init(s: State) {
    && s.cached.None? && s.inflight.None? && s.fired == {} && s.stores == []
    && forall c :: c in s.callers ==> s.callers[c].Looping?
  }

  ghost predicate IsRun(states: seq<State>, steps: seq<Step>) {
    && |states| == |steps| + 1
    && Init(states[0])
    && forall i :: 0 <= i < |steps| ==> Enabled(states[i], steps[i]) && states[i + 1] == Do(states[i], steps[i])
  }

  // ---- Invariant ----

  predicate CallerFine(s: State, p: Phase) {
    match p
    case WaitingOn(e, _) => e in s.fired || s.inflight == Some(e)
    case Running(e, _) => s.inflight == Some(e)
    case Returned(r, storedAt, own, ttl, at) =>
      Cached(r, storedAt) in s.stores && (if own then storedAt == at else at - storedAt < ttl)
    case _ => true
  }

  ghost predicate Led(s: State) {
    s.inflight.Some? ==> exists c :: c in s.callers && s.callers[c].Running? && s.callers[c].event == s.inflight.value
  }

  ghost predicate Inv(s: State) {
    && (forall c :: c in s.callers ==> CallerFine(s, s.callers[c]))
    && (forall c, d :: c in s.callers && d in s.callers && s.callers[c].Running? && s.callers[d].Running? ==> c == d)
    && Led(s)
    && (if s.stores == [] then s.cached.None? else s.cached == Some(s.stores[|s.stores| - 1]))
  }

  lemma StepKeepsInv(s: State, step: Step)
    requires Inv(s) && Enabled(s, step)
    ensures Inv(Do(s, step))
  {
    var s' := Do(s, step);
    forall c | c in s'.callers ensures CallerFine(s', s'.callers[c]) {
      assert CallerFine(s, s.callers[c]);
    }
    if s'.inflight.Some? {
      if s.inflight.None? {
        assert s'.callers[step.c].Running? && s'.callers[step.c].event == s'.inflight.value;
      } else {
        var c :| c in s.callers && s.callers[c].Running? && s.callers[c].event == s.inflight.value;
        assert s'.callers[c] == s.callers[c];
      }
    }
  }

  lemma {:induction false} RunKeepsInv(states: seq<State>, steps: seq<Step>, k: nat)
    requires IsRun(states, steps) && k < |states|
    ensures Inv(states[k])
    decreases k
  {
    if k > 0 {
      RunKeepsInv(states, steps, k - 1);
      StepKeepsInv(states[k - 1], steps[k - 1]);
    }
  }

  // ---- The guarantees ----

  /** At most one run of the check is in progress, whatever leaders are cancelled. */
  lemma OneRunAtATime(states: seq<State>, steps: seq<Step>, k: nat, c: CallId, d: CallId)
    requires IsRun(states, steps) && k < |states| && c in states[k].callers && d in states[k].callers
    requires states[k].callers[c].Running? && states[k].callers[d].Running?
    ensures c == d
  {
    RunKeepsInv(states, steps, k);
  }

  /** No waiter is stranded: it can go on at once, or somebody is running the check it waits for. */
  lemma NoStrandedWaiter(states: seq<State>, steps: seq<Step>, k: nat, c: CallId)
    requires IsRun(states, steps) && k < |states| && c in states[k].callers && states[k].callers[c].WaitingOn?
    ensures || Enabled(states[k], Wake(c))
            || (exists d :: d in states[k].callers && states[k].callers[d].Running?
                            && states[k].callers[d].event == states[k].callers[c].event)
  {
    RunKeepsInv(states, steps, k);
    assert CallerFine(states[k], states[k].callers[c]);
  }

  /** Whoever leaves the lead, by finishing or by being cancelled, lets its waiters go on. */
  lemma LeaderFreesWaiters(states: seq<State>, steps: seq<Step>, k: nat, c: CallId)
    requires IsRun(states, steps) && k < |steps| && (steps[k].Finish? || steps[k].Cancel?)
    requires states[k].callers[steps[k].c].Running?
    requires c in states[k].callers && c != steps[k].c && states[k].callers[c].WaitingOn?
    ensures Enabled(states[k + 1], Wake(c))
  {
    RunKeepsInv(states, steps, k);
    assert CallerFine(states[k], states[k].callers[c]) && CallerFine(states[k], states[k].callers[steps[k].c]);
  }

  /** A returned result is the caller's own run, or was stored less than its `ttl` ago. */
  lemma ResultIsFresh(states: seq<State>, steps: seq<Step>, k: nat, c: CallId)
    requires IsRun(states, steps) && k < |states| && c in states[k].callers && states[k].callers[c].Returned?
    ensures var p := states[k].callers[c];
            && Cached(p.result, p.storedAt) in states[k].stores
            && (!p.own ==> p.at - p.storedAt < p.ttl)
            && (p.own ==> p.storedAt == p.at)
  {
    RunKeepsInv(states, steps, k);
    assert CallerFine(states[k], states[k].callers[c]);
  }

  /** A run begins only when the latest stored result is too old for the caller that begins it. */
  lemma RunsOnlyWhenStale(states: seq<State>, steps: seq<Step>, k: nat)
    requires IsRun(states, steps) && k < |steps| && steps[k].Loop? && states[k + 1].callers[steps[k].c].Running?
    requires states[k].stores != []
    ensures var ttl := states[k].callers[steps[k].c].ttl;
            ttl <= 0.0 || ttl <= states[k].now - states[k].stores[|states[k].stores| - 1].at
  {
    RunKeepsInv(states, steps, k);
  }

  /** The aggregate is an error exactly when some critical check failed. */
  method AggregateStatus(results: seq<Result>) returns (ok: bool)
    ensures ok <==> !exists i :: 0 <= i < |results| && !results[i].ok && results[i].critical
  {
    for i := 0 to |results|
      invariant forall j :: 0 <= j < i ==> results[j].ok || !results[j].critical
    {
      if !results[i].ok && results[i].critical {
        return false;
      }
    }
    return true;
  }

  // ---- Where results come from ----

  /** Step `i` finishes a run of the check with the result and time of `entry`. */
  predicate Produced(states: seq<State>, steps: seq<Step>, i: nat, entry: Cached)
    requires i < |steps| && i < |states|
  {
    steps[i].Finish? && steps[i].result == entry.result && states[i].now == entry.at
  }

  /** Every result ever cached is one that the check gave, at the time it gave it. */
  lemma {:induction false} StoresGoBack(states: seq<State>, steps: seq<Step>, k: nat, n: nat) returns (i: nat)
    requires IsRun(states, steps) && k < |states| && n < |states[k].stores|
    ensures i < k && Produced(states, steps, i, states[k].stores[n])
    decreases k
  {
    if n < |states[k - 1].stores| {
      i := StoresGoBack(states, steps, k - 1, n);
    } else {
      i := k - 1;
    }
  }

  /** Every returned result is one that the check gave. */
  lemma ResultGoesBack(states: seq<State>, steps: seq<Step>, k: nat, c: CallId) returns (i: nat)
    requires IsRun(states, steps) && k < |states| && c in states[k].callers && states[k].callers[c].Returned?
    ensures i < k && Produced(states, steps, i, Cached(states[k].callers[c].result, states[k].callers[c].storedAt))
  {
    ResultIsFresh(states, steps, k, c);
    var n :| 0 <= n < |states[k].stores|
             && states[k].stores[n] == Cached(states[k].callers[c].result, states[k].callers[c].storedAt);
    i := StoresGoBack(states, steps, k, n);
  }

  /** Whoever runs the check returns what it gave, and leaves it for the others. */
  lemma RunnerReturnsItsResult(states: seq<State>, steps: seq<Step>, k: nat)
    requires IsRun(states, steps) && k < |steps| && steps[k].Finish?
    ensures var p := states[k + 1].callers[steps[k].c];
            p.Returned? && p.result == steps[k].result && p.own && p.at == states[k].now
    ensures states[k + 1].cached == Some(Cached(steps[k].result, states[k].now))
  {
  }

  /**
   A caller that comes round is served the latest result exactly while it is young enough, else
   runs the check when nobody does, else waits for whoever does.
   */
  lemma RoundDecides(states: seq<State>, steps: seq<Step>, k: nat)
    requires IsRun(states, steps) && k < |steps| && steps[k].Loop?
    ensures var s, p, p' := states[k], states[k].callers[steps[k].c], states[k + 1].callers[steps[k].c];
            var young := s.stores != [] && p.ttl > 0.0 && s.now < s.stores[|s.stores| - 1].at + p.ttl;
            && (p'.Returned? <==> young)
            && (young ==> p'.result == s.stores[|s.stores| - 1].result && p'.storedAt == s.stores[|s.stores| - 1].at)
            && (p'.Running? <==> !young && forall d :: d in s.callers ==> !s.callers[d].Running?)
            && (p'.WaitingOn? ==> exists d :: d in s.callers && s.callers[d].Running? && s.callers[d].event == p'.event)
  {
    RunKeepsInv(states, steps, k);
    var s := states[k];
    forall d | d in s.callers && s.callers[d].Running? ensures s.inflight == Some(s.callers[d].event) {
      assert CallerFine(s, s.callers[d]);
    }
  }
}
