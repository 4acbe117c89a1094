/** What idempotent blocks answer: a completed response is stored, and retries end with it. */
module IdempotencyAnswers {
  import opened Options
  import opened KeyedLocks
  import opened LockProtocol
  import opened Idempotency

  // ---- How a block moves ----

  /** The block still has to write `value`. */
  predicate Owes(p: Phase, value: Value) { (p.Marking? || p.Storing?) && p.value == value }

  predicate Leaving(p: Phase) { p.Releasing? || p.Done? }

  predicate Failed(p: Phase) { Leaving(p) && p.outcome.Raised? }

  /** The block has seen `found` and will end with it, or has failed. */
  predicate Saw(p: Phase, found: Stored) {
    || ((p.FirstMark? || p.LookMark?) && p.found == found)
    || Failed(p) || (Leaving(p) && p.outcome == Replayed(found))
  }

  lemma OtherBlockStays(ttl: real, s: State, step: Step, c: CallId)
    requires Enabled(s, step) && c in s.blocks
    ensures c in Do(ttl, s, step).blocks
    ensures Do(ttl, s, step).blocks[c].key == s.blocks[c].key && Do(ttl, s, step).blocks[c].fp == s.blocks[c].fp
    ensures step.Tick? || step.c != c ==> Do(ttl, s, step).blocks[c] == s.blocks[c]
  {
    if !step.Tick? {
      Frame(ttl, s, step);
    }
  }

  /** The block is on its way out, having failed if `failed`. */
  predicate LeftBy(s: State, c: CallId, failed: bool) {
    c in s.blocks && Leaving(s.blocks[c].phase) && (failed ==> Failed(s.blocks[c].phase))
  }

  /** A block leaves for good, and a failure stays one. */
  lemma LeavingStep(ttl: real, s: State, step: Step, c: CallId)
    requires Enabled(s, step) && c in s.blocks && Leaving(s.blocks[c].phase)
    ensures LeftBy(Do(ttl, s, step), c, Failed(s.blocks[c].phase))
    ensures Failed(Do(ttl, s, step).blocks[c].phase) || Do(ttl, s, step).blocks[c].phase.outcome == s.blocks[c].phase.outcome
  {
    OtherBlockStays(ttl, s, step, c);
  }

  lemma {:induction false} LeavesForGood(ttl: real, states: seq<State>, steps: seq<Step>, i: nat, k: nat, c: CallId)
    requires IsRun(ttl, states, steps) && i <= k < |states| && c in states[i].blocks && Leaving(states[i].blocks[c].phase)
    ensures LeftBy(states[k], c, Failed(states[i].blocks[c].phase))
    decreases k
  {
    if i < k {
      LeavesForGood(ttl, states, steps, i, k - 1, c);
      LeavingStep(ttl, states[k - 1], steps[k - 1], c);
    }
  }

  // ---- A completed block stores its response ----

  lemma BodyEnds(ttl: real, s: State, c: CallId, ok: bool, value: Option<Value>)
    requires Enabled(s, EndBody(c, ok, value))
    ensures var p := Do(ttl, s, EndBody(c, ok, value)).blocks[c].phase;
            if !ok then Failed(p) else if value.Some? then Owes(p, value.value) else Leaving(p) && p.outcome == Executed
  {
  }

  /** Until it has written, the block owes its value; it fails, or writes it for the time to live. */
  lemma OwingStep(ttl: real, s: State, step: Step, c: CallId, value: Value)
    requires Enabled(s, step) && c in s.blocks && Owes(s.blocks[c].phase, value)
    ensures var s' := Do(ttl, s, step);
            && c in s'.blocks
            && (|| Owes(s'.blocks[c].phase, value)
                || Failed(s'.blocks[c].phase)
                || (step == WriteResponse(c) && Writes(ttl, s, s', c, value) && Leaving(s'.blocks[c].phase)))
  {
    OtherBlockStays(ttl, s, step, c);
  }

  /** The step leaves a response for the key of `c` with this value, for the time to live. */
  predicate Writes(ttl: real, s: State, s': State, c: CallId, value: Value)
    requires c in s.blocks
  {
    var b := s.blocks[c];
    b.key in s'.responses && s'.responses[b.key] == Stored(value, b.fp, s.now + ttl)
  }

  /** Step `j` writes the response of block `c`. */
  ghost predicate WroteAt(ttl: real, states: seq<State>, steps: seq<Step>, j: nat, c: CallId, value: Value) {
    && j + 1 < |states| && j < |steps| && steps[j] == WriteResponse(c) && c in states[j].blocks
    && Writes(ttl, states[j], states[j + 1], c, value)
  }

  /**
   A body that ends with a response to store: at every later state the block still owes the write,
   or has failed, or some step in between left the response, and the block is on its way out.
   */
  lemma {:induction false} CompletedIsStored(ttl: real, states: seq<State>, steps: seq<Step>, i: nat, k: nat, value: Value)
    returns (j: nat)
    requires IsRun(ttl, states, steps) && i < k < |states| && steps[i].EndBody? && steps[i].ok && steps[i].value == Some(value)
    ensures var c := steps[i].c;
            && c in states[k].blocks
            && (|| Owes(states[k].blocks[c].phase, value)
                || Failed(states[k].blocks[c].phase)
                || (i < j < k && WroteAt(ttl, states, steps, j, c, value) && Leaving(states[k].blocks[c].phase)))
    decreases k
  {
    var c := steps[i].c;
    j := i;
    if i + 1 == k {
      BodyEnds(ttl, states[i], c, true, Some(value));
    } else {
      j := CompletedIsStored(ttl, states, steps, i, k - 1, value);
      var s, step := states[k - 1], steps[k - 1];
      if Owes(s.blocks[c].phase, value) {
        OwingStep(ttl, s, step, c, value);
        j := k - 1;
      } else {
        LeavingStep(ttl, s, step, c);
      }
    }
  }

  /** A failed body never writes anything. */
  lemma FailedBodyStoresNothing(ttl: real, states: seq<State>, steps: seq<Step>, i: nat, k: nat)
    requires IsRun(ttl, states, steps) && i < k < |steps| && steps[i].EndBody? && (!steps[i].ok || steps[i].value.None?)
    ensures steps[k] != WriteMark(steps[i].c) && steps[k] != WriteResponse(steps[i].c)
  {
    BodyEnds(ttl, states[i], steps[i].c, steps[i].ok, steps[i].value);
    LeavesForGood(ttl, states, steps, i + 1, k, steps[i].c);
  }

  // ---- A stored response stays, and readers end with it ----

  lemma ResponseStep(ttl: real, s: State, step: Step, key: Key)
    requires Inv(ttl, s) && Enabled(s, step) && key in s.responses
    requires s.now < s.responses[key].expiry
    ensures key in Do(ttl, s, step).responses && Do(ttl, s, step).responses[key] == s.responses[key]
  {
    if !step.Tick? {
      Frame(ttl, s, step);
      assert BlockFine(ttl, s, s.blocks[step.c]);
    }
  }

  lemma ClockStep(ttl: real, s: State, step: Step)
    requires Enabled(s, step)
    ensures s.now <= Do(ttl, s, step).now
  {
    if !step.Tick? {
      Frame(ttl, s, step);
    }
  }

  /** A live response stays as it is while requests are safe. */
  lemma {:induction false} ResponseStays(ttl: real, states: seq<State>, steps: seq<Step>, j: nat, k: nat, key: Key, r: Stored)
    requires IsRun(ttl, states, steps) && j <= k < |states| && SafeUpTo(states, steps, k)
    requires key in states[j].responses && states[j].responses[key] == r && states[k].now < r.expiry
    ensures key in states[k].responses && states[k].responses[key] == r
    decreases k
  {
    if j < k {
      ClockStep(ttl, states[k - 1], steps[k - 1]);
      ResponseStays(ttl, states, steps, j, k - 1, key, r);
      RunKeepsInv(ttl, states, steps, k - 1);
      ResponseStep(ttl, states[k - 1], steps[k - 1], key);
    }
  }

  /** Looking while a response is live finds it, at once when no fingerprint was given. */
  lemma LookFinds(s: State, step: Step)
    requires Enabled(s, step) && (step.ReadFirst? || step.ReadLocked?) && LiveAt(s, s.blocks[step.c].key)
    ensures var found, p := s.responses[s.blocks[step.c].key], DoRead(s, step).blocks[step.c].phase;
            && Saw(p, found) && !Failed(p)
            && (s.blocks[step.c].fp.None? ==> Leaving(p) && p.outcome == Replayed(found))
  {
  }

  lemma SeenStep(ttl: real, s: State, step: Step, c: CallId, found: Stored)
    requires Enabled(s, step) && c in s.blocks && Saw(s.blocks[c].phase, found)
    ensures c in Do(ttl, s, step).blocks && Saw(Do(ttl, s, step).blocks[c].phase, found)
  {
    OtherBlockStays(ttl, s, step, c);
  }

  /** A block that looks while a response is live never executes: it ends with exactly that response, or fails. */
  lemma {:induction false} LiveReaderEndsWithIt(ttl: real, states: seq<State>, steps: seq<Step>, k: nat, m: nat)
    requires IsRun(ttl, states, steps) && k < m < |states| && (steps[k].ReadFirst? || steps[k].ReadLocked?)
    requires LiveAt(states[k], states[k].blocks[steps[k].c].key)
    ensures steps[k].c in states[m].blocks
    ensures Saw(states[m].blocks[steps[k].c].phase, states[k].responses[states[k].blocks[steps[k].c].key])
    decreases m
  {
    if k + 1 == m {
      LookFinds(states[k], steps[k]);
    } else {
      LiveReaderEndsWithIt(ttl, states, steps, k, m - 1);
      SeenStep(ttl, states[m - 1], steps[m - 1], steps[k].c, states[k].responses[states[k].blocks[steps[k].c].key]);
    }
  }

  /**
   The promise of a key: once a block's response is written, every block for the key that looks
   within the time to live ends with that value, or fails, whatever happens in between.
   */
  lemma RetryEndsWithIt(ttl: real, states: seq<State>, steps: seq<Step>, j: nat, k: nat, m: nat, c: CallId, value: Value)
    requires IsRun(ttl, states, steps) && j < k < m < |states| && SafeUpTo(states, steps, k)
    requires WroteAt(ttl, states, steps, j, c, value) && states[k].now < states[j].now + ttl
    requires (steps[k].ReadFirst? || steps[k].ReadLocked?) && states[k].blocks[steps[k].c].key == states[j].blocks[c].key
    ensures steps[k].c in states[m].blocks
    ensures Saw(states[m].blocks[steps[k].c].phase, Stored(value, states[j].blocks[c].fp, states[j].now + ttl))
  {
    var key, r := states[j].blocks[c].key, Stored(value, states[j].blocks[c].fp, states[j].now + ttl);
    ResponseStays(ttl, states, steps, j + 1, k, key, r);
    LiveReaderEndsWithIt(ttl, states, steps, k, m);
  }

  /** Reading the fingerprint raises exactly when it is another one, and else replays. */
  lemma FingerprintDecides(ttl: real, rules: Rules, states: seq<State>, steps: seq<Step>, k: nat)
    requires GoodRun(ttl, rules, states, steps) && rules.safe && rules.late <= 0.0 && rules.gap + rules.late <= 1.0
    requires k < |steps| && steps[k].ReadMark? && states[k].blocks[steps[k].c].phase.found.fp.Some?
    ensures var b, p := states[k].blocks[steps[k].c], states[k + 1].blocks[steps[k].c].phase;
            if b.phase.found.fp == b.fp then Leaving(p) && p.outcome == Replayed(b.phase.found) else Failed(p)
  {
    var s, b := states[k], states[k].blocks[steps[k].c];
    SafeRun(ttl, rules, states, steps, k);
    RunKeepsInv(ttl, states, steps, k);
    RunKeepsMarks(ttl, rules, states, steps, k);
    assert Obeys(rules, s, steps[k]) && BlockFine(ttl, s, b);
    assert MarkFine(rules.gap, s, b.key);
  }

  /** Looking under the lock and finding nothing live starts an execution, unless the distributed lock comes first. */
  lemma MissExecutes(ttl: real, states: seq<State>, steps: seq<Step>, k: nat)
    requires IsRun(ttl, states, steps) && k < |steps| && steps[k].ReadLocked?
    requires !LiveAt(states[k], states[k].blocks[steps[k].c].key)
    ensures var p, p' := states[k].blocks[steps[k].c].phase, states[k + 1].blocks[steps[k].c].phase;
            if steps[k].useDist && !p.dist then p' == Acquiring(p.lock) else p' == Body(p.lock, p.dist, states[k].now)
  {
  }

  /**
   No queued block is stranded: another block owns the lock it waits on and can give it up, or the
   head of the queue can go on.
   */
  lemma NoStrandedBlock(ttl: real, states: seq<State>, steps: seq<Step>, k: nat, c: CallId) returns (d: CallId)
    requires IsRun(ttl, states, steps) && k < |states| && c in states[k].blocks && states[k].blocks[c].phase.Queued?
    ensures var s, lock := states[k], states[k].blocks[c].phase.lock;
            && d in s.blocks
            && ((SeatOf(s.blocks[d]).role == Holds(lock) && (Enabled(s, Interrupt(d)) || Enabled(s, Release(d, true))))
                || (Enabled(s, WakeUp(d)) && s.blocks[d].phase.lock == lock))
  {
    RunKeepsLocks(ttl, states, steps, k);
    var s := states[k];
    assert SeatsOf(s.blocks)[c] == SeatOf(s.blocks[c]);
    d := SomebodyGoesOn(s.guard, SeatsOf(s.blocks), c);
    assert SeatsOf(s.blocks)[d] == SeatOf(s.blocks[d]);
  }
  // ---- The distributed lock is given up ----

  /** The block has the distributed lock and has not finished trying to release it. */
  predicate KeepsDist(p: Phase) { (Owns(p) && HasDist(p)) || (p.Releasing? && p.dist) }

  predicate DistIn(s: State, c: CallId) { c in s.blocks && KeepsDist(s.blocks[c].phase) }

  lemma LosesDist(ttl: real, s: State, step: Step, c: CallId)
    requires Enabled(s, step) && DistIn(s, c) && !DistIn(Do(ttl, s, step), c)
    ensures step.Release? && step.c == c
  {
    OtherBlockStays(ttl, s, step, c);
  }

  lemma {:induction false} KeptUntilReleased(ttl: real, states: seq<State>, steps: seq<Step>, j: nat, k: nat, c: CallId)
    returns (i: nat)
    requires IsRun(ttl, states, steps) && j <= k < |states| && DistIn(states[j], c) && !DistIn(states[k], c)
    ensures j <= i < k && steps[i].Release? && steps[i].c == c
    decreases k
  {
    if DistIn(states[k - 1], c) {
      LosesDist(ttl, states[k - 1], steps[k - 1], c);
      i := k - 1;
    } else {
      i := KeptUntilReleased(ttl, states, steps, j, k - 1, c);
    }
  }

  /** A block that took the distributed lock is done only after trying to release it, however it ends. */
  lemma DistGivenUp(ttl: real, states: seq<State>, steps: seq<Step>, j: nat, k: nat, c: CallId) returns (i: nat)
    requires IsRun(ttl, states, steps) && j < k < |states| && c in states[j].blocks && c in states[k].blocks
    requires steps[j] == DistLocked(c) && states[k].blocks[c].phase.Done?
    ensures j < i < k && steps[i].Release? && steps[i].c == c
  {
    i := KeptUntilReleased(ttl, states, steps, j + 1, k, c);
  }

  predicate RetryFine(p: Phase) { p.Releasing? && p.outcome.Replayed? ==> p.retry }

  lemma RetryStep(ttl: real, s: State, step: Step, c: CallId)
    requires Enabled(s, step) && c in s.blocks && RetryFine(s.blocks[c].phase)
    ensures RetryFine(Do(ttl, s, step).blocks[c].phase)
  {
    OtherBlockStays(ttl, s, step, c);
  }

  lemma {:induction false} RunKeepsRetry(ttl: real, states: seq<State>, steps: seq<Step>, k: nat, c: CallId)
    requires IsRun(ttl, states, steps) && k < |states| && c in states[k].blocks
    ensures RetryFine(states[k].blocks[c].phase)
    decreases k
  {
    if k > 0 {
      RunKeepsRetry(ttl, states, steps, k - 1, c);
      RetryStep(ttl, states[k - 1], steps[k - 1], c);
    }
  }

  /** When releasing it after a replay fails, the block tries once more before it is done, and raises. */
  lemma FailedReleaseIsRetried(ttl: real, states: seq<State>, steps: seq<Step>, j: nat, k: nat, c: CallId) returns (i: nat)
    requires IsRun(ttl, states, steps) && j < k < |states| && c in states[j].blocks && c in states[k].blocks
    requires steps[j] == Release(c, false) && states[j].blocks[c].phase.dist && states[j].blocks[c].phase.outcome.Replayed?
    requires states[k].blocks[c].phase.Done?
    ensures j < i < k && steps[i].Release? && steps[i].c == c && states[k].blocks[c].phase == Done(Raised)
  {
    RunKeepsRetry(ttl, states, steps, j, c);
    LeavesForGood(ttl, states, steps, j + 1, k, c);
    i := KeptUntilReleased(ttl, states, steps, j + 1, k, c);
  }
}
