/**
 The Kubernetes lock: one Lease object, read with its resource version and written back under
 it. A client first reads the clock, then the object, then sends a write; any number of clients
 interleave at these points, and a sent write may land at any later moment, even after its sender
 gave up waiting.
 */
module KubernetesLock {
  import opened Options
  import Leases

  type Token = string

  /** Every field may be absent, as in the API. */
  datatype Spec = Spec(holder: Option<Token>, duration: Option<nat>, renewTime: Option<real>, transitions: Option<nat>)
  datatype Object = Object(spec: Spec, version: nat)

  function ExpireAt(spec: Spec): Option<real> {
    if spec.renewTime.Some? && spec.duration.Some? then Some(spec.renewTime.value + spec.duration.value as real) else None
  }

  predicate LiveAt(spec: Spec, now: real) {
    ExpireAt(spec).Some? && ExpireAt(spec).value >= now
  }

  function Transitions(spec: Spec): nat {
    if spec.transitions.Some? then spec.transitions.value else 0
  }

  /** `seconds` is the requested duration rounded up; `Sweep` is the pass made on close. */
  datatype Op = Acquire(token: Token, seconds: nat) | Release(token: Token) | Sweep

  /** An operation that read the clock at `now` and has not read the object yet. */
  datatype Ask = Ask(op: Op, now: real)

  /** A write on its way, decided at `stamp` from `base` by an operation begun at `now`. */
  datatype Write =
    | Create(token: Token, seconds: nat, stamp: real)
    | Replace(op: Op, base: Object, now: real, stamp: real)

  /** What the operation decides after reading the object: a write, or nothing. */
  function Decide(a: Ask, server: Option<Object>, stamp: real): Option<Write> {
    match a.op
    case Acquire(token, seconds) =>
      if server.None? then Some(Create(token, seconds, stamp))
      else
        var spec := server.value.spec;
        if LiveAt(spec, a.now) && spec.holder != Some(token) then None
        else Some(Replace(a.op, server.value, a.now, stamp))
    case Release(token) =>
      if server.Some? && server.value.spec.holder == Some(token) && LiveAt(server.value.spec, a.now)
      then Some(Replace(a.op, server.value, a.now, stamp)) else None
    case Sweep =>
      if server.Some? && server.value.spec.holder.Some? && ExpireAt(server.value.spec).Some?
         && ExpireAt(server.value.spec).value < a.now
      then Some(Replace(a.op, server.value, a.now, stamp)) else None
  }

  /** The spec a write carries. */
  function Payload(w: Write): Spec {
    match w
    case Create(token, seconds, stamp) => Spec(Some(token), Some(seconds), Some(stamp), Some(1))
    case Replace(op, base, now, stamp) =>
      var current := Transitions(base.spec);
      if op.Acquire? then
        var fence := if LiveAt(base.spec, now) && base.spec.holder == Some(op.token) then current else current + 1;
        Spec(Some(op.token), Some(op.seconds), Some(stamp), Some(fence))
      else Spec(None, None, None, Some(current))
  }

  predicate IsGrant(w: Write) { w.Create? || w.op.Acquire? }

  datatype Granted = Granted(token: Token, fence: nat)

  datatype State = State(now: real, server: Option<Object>, asks: set<Ask>, writes: set<Write>, grants: seq<Granted>)

  datatype Step =
    | Tick(now: real)
    | Begin(op: Op)
    | Look(ask: Ask)
    | Land(write: Write)

  /** The API server takes the write: the version it was based on is the current one. */
  predicate Accepts(server: Option<Object>, w: Write) {
    if w.Create? then server.None? else server.Some? && server.value.version == w.base.version
  }

  predicate Enabled(s: State, step: Step) {
    match step
    case Tick(now) => s.now <= now
    case Begin(_) => true
    case Look(ask) => ask in s.asks
    case Land(w) => w in s.writes
  }

  function Do(s: State, step: Step): State {
    match step
    case Tick(now) => s.(now := now)
    case Begin(op) => s.(asks := s.asks + {Ask(op, s.now)})
    case Look(ask) =>
      var w := Decide(ask, s.server, s.now);
      if w.Some? then s.(writes := s.writes + {w.value}) else s
    case Land(w) =>
      if !Accepts(s.server, w) then s
      else
        var version := if s.server.Some? then s.server.value.version + 1 else 1;
        s.(server := Some(Object(Payload(w), version)),
           grants := if IsGrant(w)
                     then s.grants + [Granted(Payload(w).holder.value, Transitions(Payload(w)))]
                     else s.grants)
  }

  /** Any lease may already exist when the run starts. */
  predicate Init(s: State) {
    s.asks == {} && s.writes == {} && s.grants == []
  }

  ghost predicate IsRun(states: seq<State>, steps: seq<Step>) {
    && |states| == |steps| + 1
    && Init(states[0])
    && forall i :: 0 <= i < |steps| ==> Enabled(states[i], steps[i]) && states[i + 1] == Do(states[i], steps[i])
  }

  // ---- What every step keeps ----

  /** A write still matches what its operation saw, and if its version is current, so is its base. */
  predicate Sound(s: State, w: Write) {
    w.Replace? ==>
      && w.now <= w.stamp <= s.now
      && Decide(Ask(w.op, w.now), Some(w.base), w.stamp) == Some(w)
      && s.server.Some? && w.base.version <= s.server.value.version
      && (w.base.version == s.server.value.version ==> w.base == s.server.value)
  }

  predicate Recorded(s: State, g: Granted) {
    && s.server.Some?
    && g.fence <= Transitions(s.server.value.spec)
    && (s.server.value.spec.holder.Some? && g.fence == Transitions(s.server.value.spec) ==>
          g.token == s.server.value.spec.holder.value)
  }

  ghost predicate Inv(s: State) {
    && (forall a :: a in s.asks ==> a.now <= s.now)
    && (forall w :: w in s.writes ==> Sound(s, w))
    && (forall i :: 0 <= i < |s.grants| ==> Recorded(s, s.grants[i]))
  }

  lemma StepKeepsInv(s: State, step: Step)
    requires Inv(s) && Enabled(s, step)
    ensures Inv(Do(s, step))
  {
    var s' := Do(s, step);
    forall w | w in s'.writes ensures Sound(s', w) {
      if w in s.writes {
        assert Sound(s, w);
      }
    }
    if step.Land? && Accepts(s.server, step.write) {
      assert Sound(s, step.write);
      forall i | 0 <= i < |s'.grants| ensures Recorded(s', s'.grants[i]) {
        if i < |s.grants| {
          assert Recorded(s, s.grants[i]);
        }
      }
    }
  }

  lemma {:induction false} RunKeepsInv(states: seq<State>, steps: seq<Step>, k: nat)
    requires IsRun(states, steps) && k < |states|
    ensures Inv(states[k])
    decreases k
  {
    if k > 0 {
      RunKeepsInv(states, steps, k - 1);
      StepKeepsInv(states[k - 1], steps[k - 1]);
    }
  }

  // ---- The guarantees ----

  /** A landing write that takes effect. */
  predicate Effective(s: State, step: Step) {
    step.Land? && Accepts(s.server, step.write)
  }

  /**
   No update is lost: a write takes effect only on the very object it was decided from, and each
   effective write moves the version, so of several writes decided from one object one wins.
   */
  lemma NoLostUpdate(states: seq<State>, steps: seq<Step>, i: nat, j: nat)
    requires IsRun(states, steps) && i < j < |steps|
    requires Effective(states[i], steps[i]) && Effective(states[j], steps[j])
    ensures steps[i].write.Replace? ==> states[i].server == Some(steps[i].write.base)
    ensures steps[j].write.Replace? && states[j].server == Some(steps[j].write.base)
    ensures states[i + 1].server.value.version <= steps[j].write.base.version
    ensures steps[i].write.Replace? ==> steps[i].write.base.version < steps[j].write.base.version
  {
    RunKeepsInv(states, steps, i);
    RunKeepsInv(states, steps, j);
    assert Sound(states[i], steps[i].write) && Sound(states[j], steps[j].write);
    VersionsClimb(states, steps, i + 1, j);
  }

  lemma {:induction false} VersionsClimb(states: seq<State>, steps: seq<Step>, i: nat, j: nat)
    requires IsRun(states, steps) && i <= j < |states| && states[i].server.Some?
    ensures states[j].server.Some? && states[i].server.value.version <= states[j].server.value.version
    ensures states[i].server.value.version == states[j].server.value.version ==> states[i].server == states[j].server
    decreases j
  {
    if i < j {
      VersionsClimb(states, steps, i, j - 1);
    }
  }

  /** `leaseTransitions` never decreases, release and the closing sweep included. */
  lemma {:induction false} TransitionsClimb(states: seq<State>, steps: seq<Step>, i: nat, j: nat)
    requires IsRun(states, steps) && i <= j < |states| && states[i].server.Some?
    ensures states[j].server.Some?
    ensures Transitions(states[i].server.value.spec) <= Transitions(states[j].server.value.spec)
    decreases j
  {
    if i < j {
      TransitionsClimb(states, steps, i, j - 1);
      RunKeepsInv(states, steps, j - 1);
      if Effective(states[j - 1], steps[j - 1]) {
        assert Sound(states[j - 1], steps[j - 1].write);
      }
    }
  }

  lemma LandingGrantClimbs(states: seq<State>, steps: seq<Step>, k: nat, g: nat)
    requires IsRun(states, steps) && k < |steps|
    requires Effective(states[k], steps[k]) && IsGrant(steps[k].write)
    requires g < |states[k].grants|
    ensures |states[k + 1].grants| == |states[k].grants| + 1
    ensures var latest, earlier := states[k + 1].grants[|states[k].grants|], states[k].grants[g];
            earlier.fence <= latest.fence && (earlier.token != latest.token ==> earlier.fence < latest.fence)
  {
    RunKeepsInv(states, steps, k);
    assert Sound(states[k], steps[k].write) && Recorded(states[k], states[k].grants[g]);
  }

  /**
   Fences over any interleaving: of any two grants in the order they landed, the later carries a
   fence no smaller, and a strictly larger one when the token differs.
   */
  lemma {:induction false} GrantsClimb(states: seq<State>, steps: seq<Step>, k: nat, i: nat, j: nat)
    requires IsRun(states, steps) && k < |states| && i < j < |states[k].grants|
    ensures states[k].grants[i].fence <= states[k].grants[j].fence
    ensures states[k].grants[i].token != states[k].grants[j].token ==>
              states[k].grants[i].fence < states[k].grants[j].fence
    decreases k
  {
    if k > 0 {
      if j < |states[k - 1].grants| {
        GrantsClimb(states, steps, k - 1, i, j);
      } else {
        LandingGrantClimbs(states, steps, k - 1, i);
      }
    }
  }

  /**
   No live lease is taken from its holder: a landing write that removes or replaces holder `a` is
   `a`'s own release, or the lease had lapsed by the shared clock when the write landed.
   */
  lemma LiveLeaseNotTaken(states: seq<State>, steps: seq<Step>, k: nat)
    requires IsRun(states, steps) && k < |steps|
    requires states[k].server.Some? && states[k].server.value.spec.holder.Some?
    requires states[k + 1].server.value.spec.holder != states[k].server.value.spec.holder
    ensures states[k + 1].server.Some? && steps[k].Land? && steps[k].write.Replace?
    ensures || steps[k].write.op == Release(states[k].server.value.spec.holder.value)
            || !LiveAt(states[k].server.value.spec, states[k].now)
  {
    RunKeepsInv(states, steps, k);
    assert Sound(states[k], steps[k].write);
  }

  /** Extending keeps the fence exactly when the read found the lease live and the caller's own. */
  lemma FenceKeptIffExtend(states: seq<State>, steps: seq<Step>, k: nat)
    requires IsRun(states, steps) && k < |steps|
    requires Effective(states[k], steps[k]) && steps[k].write.Replace? && steps[k].write.op.Acquire?
    ensures var before, after := states[k].server.value.spec, states[k + 1].server.value.spec;
            var w := steps[k].write;
            && after.holder == Some(w.op.token)
            && (Transitions(after) == Transitions(before)
                <==> before.holder == Some(w.op.token) && LiveAt(before, w.now))
            && Transitions(after) <= Transitions(before) + 1
  {
    RunKeepsInv(states, steps, k);
    assert Sound(states[k], steps[k].write);
  }

  // ---- The abstract lease ----

  /** An expiry comes with a holder, as in every lease this adapter writes. */
  predicate Shaped(server: Option<Object>) {
    server.Some? && ExpireAt(server.value.spec).Some? ==> server.value.spec.holder.Some?
  }

  function LeaseOf(server: Option<Object>): Leases.Lease {
    if server.None? then Leases.FREE
    else
      var spec := server.value.spec;
      Leases.Lease(if spec.holder.Some? && ExpireAt(spec).Some? then Some(Leases.Hold(spec.holder.value, ExpireAt(spec).value))
                   else None,
                   Transitions(spec))
  }

  lemma {:induction false} StaysShaped(states: seq<State>, steps: seq<Step>, k: nat)
    requires IsRun(states, steps) && k < |states| && Shaped(states[0].server)
    ensures Shaped(states[k].server)
    decreases k
  {
    if k > 0 {
      StaysShaped(states, steps, k - 1);
    }
  }

  /** An operation answers without writing exactly when the abstract lease, at its clock reading, refuses it. */
  lemma DecideRefines(a: Ask, server: Option<Object>, stamp: real, until: real)
    requires Shaped(server)
    ensures a.op.Acquire? ==>
              (Decide(a, server, stamp).None?
               <==> Leases.Acquire(Leases.Closed, LeaseOf(server), a.op.token, until, a.now).1.None?)
    ensures a.op.Release? ==>
              (Decide(a, server, stamp).Some? <==> Leases.Release(Leases.Closed, LeaseOf(server), a.op.token, a.now).1)
    ensures a.op.Sweep? ==>
              (Decide(a, server, stamp).Some?
               <==> LeaseOf(server).hold.Some? && !Leases.Held(Leases.Closed, LeaseOf(server), a.now))
  {
  }

  /** The hold lapsed between the clock reading of the operation and the landing of its write. */
  predicate LapsedOnTheWay(w: Write, landing: real) {
    w.Replace? && LiveAt(w.base.spec, w.now) && !LiveAt(w.base.spec, landing)
  }

  // Who a granting write is for, for how long, and by which clock reading it is dated.
  function Grantee(w: Write): Token
    requires IsGrant(w)
  {
    if w.Create? then w.token else w.op.token
  }

  function GrantEnd(w: Write): real
    requires IsGrant(w)
  {
    w.stamp + (if w.Create? then w.seconds else w.op.seconds) as real
  }

  /** When the landing write took effect on the abstract lease. */
  function DecidedAt(w: Write): real { if w.Create? then w.stamp else w.now }

  /**
   A landing grant is the abstract acquire at the clock reading of its operation, and also at the
   moment it lands, except exactly when the caller's own hold lapsed on the way.
   */
  lemma LandingGrantRefines(states: seq<State>, steps: seq<Step>, k: nat)
    requires IsRun(states, steps) && Shaped(states[0].server) && k < |steps|
    requires Effective(states[k], steps[k]) && IsGrant(steps[k].write)
    ensures var before, after, w := LeaseOf(states[k].server), LeaseOf(states[k + 1].server), steps[k].write;
            var step := (after, Some(after.fence));
            && Leases.Acquire(Leases.Closed, before, Grantee(w), GrantEnd(w), DecidedAt(w)) == step
            && (Leases.Acquire(Leases.Closed, before, Grantee(w), GrantEnd(w), states[k].now) == step
                <==> !LapsedOnTheWay(w, states[k].now))
    ensures states[k + 1].grants == states[k].grants + [Granted(Grantee(steps[k].write), LeaseOf(states[k + 1].server).fence)]
  {
    StaysShaped(states, steps, k);
    RunKeepsInv(states, steps, k);
    assert Sound(states[k], steps[k].write);
  }

  /** A landing release or sweep is the abstract release, or nothing, up to a lapsed hold. */
  lemma LandingVacancyRefines(states: seq<State>, steps: seq<Step>, k: nat)
    requires IsRun(states, steps) && Shaped(states[0].server) && k < |steps|
    requires Effective(states[k], steps[k]) && !IsGrant(steps[k].write)
    ensures var before, after, op, now := LeaseOf(states[k].server), LeaseOf(states[k + 1].server), steps[k].write.op, states[k].now;
            && (op.Release? ==> Leases.Release(Leases.Closed, before, op.token, steps[k].write.now) == (after, true))
            && (op.Release? ==>
                  Leases.Same(Leases.Closed, after, Leases.Release(Leases.Closed, before, op.token, now).0, now))
            && (op.Sweep? ==> Leases.Same(Leases.Closed, after, before, now))
            && after.hold.None?
  {
    StaysShaped(states, steps, k);
    RunKeepsInv(states, steps, k);
    assert Sound(states[k], steps[k].write);
  }

  /** Every other step leaves the abstract lease alone. */
  lemma QuietStepRefines(states: seq<State>, steps: seq<Step>, k: nat)
    requires IsRun(states, steps) && k < |steps| && !Effective(states[k], steps[k])
    ensures LeaseOf(states[k + 1].server) == LeaseOf(states[k].server)
  {
  }

  /** What a step does to the abstract lease. */
  ghost predicate Simulates(s: State, step: Step, before: Leases.Lease, after: Leases.Lease) {
    if !Effective(s, step) then after == before
    else
      var w := step.write;
      if IsGrant(w) then
        Leases.Acquire(Leases.Closed, before, Grantee(w), GrantEnd(w), DecidedAt(w)) == (after, Some(after.fence))
      else if w.op.Release? then Leases.Release(Leases.Closed, before, w.op.token, w.now) == (after, true)
      else Leases.Same(Leases.Closed, after, before, s.now)
  }

  /**
   Every run on one object is a run of the abstract lease: each effective write is its acquire or
   release, at the clock reading it was decided by, a sweep changes nothing that can be told, and
   every other step changes nothing.
   */
  lemma RunSimulates(states: seq<State>, steps: seq<Step>, k: nat)
    requires IsRun(states, steps) && Shaped(states[0].server) && k < |steps|
    ensures Simulates(states[k], steps[k], LeaseOf(states[k].server), LeaseOf(states[k + 1].server))
  {
    if !Effective(states[k], steps[k]) {
      QuietStepRefines(states, steps, k);
    } else if IsGrant(steps[k].write) {
      LandingGrantRefines(states, steps, k);
    } else {
      LandingVacancyRefines(states, steps, k);
    }
  }

  // ---- What a grant is worth ----

  /**
   A granted lease refuses everyone else through the seconds asked for, counted from the reading
   that dates the write, and nobody after.
   */
  lemma GrantLasts(states: seq<State>, steps: seq<Step>, k: nat, other: Token, seconds: nat, now: real, stamp: real)
    requires IsRun(states, steps) && k < |steps|
    requires Effective(states[k], steps[k]) && IsGrant(steps[k].write) && other != Grantee(steps[k].write)
    ensures Decide(Ask(Acquire(other, seconds), now), states[k + 1].server, stamp).None? <==> now <= GrantEnd(steps[k].write)
  {
  }

  /** Through that time, and no longer, its holder can give it up; nobody else ever can. */
  lemma GrantIsItsHolders(states: seq<State>, steps: seq<Step>, k: nat, token: Token, now: real, stamp: real)
    requires IsRun(states, steps) && k < |steps| && Effective(states[k], steps[k]) && IsGrant(steps[k].write)
    ensures Decide(Ask(Release(token), now), states[k + 1].server, stamp).Some?
            <==> token == Grantee(steps[k].write) && now <= GrantEnd(steps[k].write)
  {
  }

  /** A client that nobody interferes with: the three steps of an operation. */
  function Undisturbed(s: State, op: Op): State {
    var ask := Ask(op, s.now);
    var looked := Do(Do(s, Begin(op)), Look(ask));
    var w := Decide(ask, s.server, s.now);
    if w.Some? then Do(looked, Land(w.value)) else looked
  }

  /**
   Without interference an acquire of a lease that is free, lapsed or the caller's own succeeds for
   the whole duration, and of any other changes nothing.
   */
  lemma UndisturbedAcquire(s: State, token: Token, seconds: nat)
    requires Shaped(s.server)
    ensures var s' := Undisturbed(s, Acquire(token, seconds));
            if !Leases.Held(Leases.Closed, LeaseOf(s.server), s.now) then
              && LeaseOf(s'.server) == Leases.Lease(Some(Leases.Hold(token, s.now + seconds as real)), LeaseOf(s.server).fence + 1)
              && s'.grants == s.grants + [Granted(token, LeaseOf(s.server).fence + 1)]
            else if LeaseOf(s.server).hold.value.token == token then
              && LeaseOf(s'.server) == Leases.Lease(Some(Leases.Hold(token, s.now + seconds as real)), LeaseOf(s.server).fence)
              && s'.grants == s.grants + [Granted(token, LeaseOf(s.server).fence)]
            else s'.server == s.server && s'.grants == s.grants
  {
  }

  lemma UndisturbedRelease(s: State, token: Token)
    requires Shaped(s.server)
    ensures var s' := Undisturbed(s, Release(token));
            LeaseOf(s'.server) == Leases.Release(Leases.Closed, LeaseOf(s.server), token, s.now).0
  {
  }
}
