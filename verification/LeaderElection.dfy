/** One worker of a leader election: its local view of leadership and how replies change it. */
module LeaderWorker {
  import opened Options
  import opened Election

  datatype Config = Config(leaseDuration: real, renewDeadline: real, retryInterval: real,
                           backendTimeout: real, retryJitter: real)
  {
    /** What the configuration validator accepts. */
    predicate Validates() {
      && 0.0 < leaseDuration && 0.0 < renewDeadline && 0.0 < retryInterval && 0.0 < backendTimeout
      && renewDeadline < leaseDuration
      && retryInterval < renewDeadline
      && backendTimeout < renewDeadline
      && 0.0 <= retryJitter < 1.0
    }
  }

  /** The three fields a reply or an error updates. */
  datatype Belief = Belief(isLeader: bool, updatedAt: real, confirmedAt: Option<real>)

  function Update(b: Belief, leader: bool, now: real): Belief {
    Belief(leader, now, if leader then Some(now) else None)
  }

  predicate DeadlineReached(c: Config, b: Belief, now: real) { now - b.updatedAt >= c.renewDeadline }

  function OnReply(b: Belief, token: Token, holder: Token, now: real): Belief {
    Update(b, holder == token, now)
  }

  function OnError(c: Config, b: Belief, now: real): Belief {
    if DeadlineReached(c, b, now) then Update(b, false, now) else b
  }

  predicate IsLeader(c: Config, b: Belief, now: real) {
    b.isLeader && !DeadlineReached(c, b, now)
  }

  predicate ConfirmedWithin(b: Belief, maxAge: real, now: real) {
    b.isLeader && b.confirmedAt.Some? && now - b.confirmedAt.value <= maxAge
  }

  /** A reply decides both answers from then on: leadership until the deadline, confirmation by its age. */
  lemma ReplyDecidesAnswers(c: Config, b: Belief, token: Token, holder: Token, now: real, maxAge: real, t: real)
    requires now <= t
    ensures IsLeader(c, OnReply(b, token, holder, now), t) <==> holder == token && t < now + c.renewDeadline
    ensures ConfirmedWithin(OnReply(b, token, holder, now), maxAge, t) <==> holder == token && t <= now + maxAge
  {
  }

  /**
   An error never changes what `is_leader` answers from then on, although it may reset the state;
   it withdraws a confirmation exactly when the renew deadline has passed.
   */
  lemma ErrorKeepsAnswers(c: Config, b: Belief, now: real, maxAge: real, t: real)
    requires now <= t
    ensures IsLeader(c, OnError(c, b, now), t) <==> IsLeader(c, b, t)
    ensures ConfirmedWithin(OnError(c, b, now), maxAge, t) <==> ConfirmedWithin(b, maxAge, t) && !DeadlineReached(c, b, now)
  {
  }

  class LeaderElection {
    const config: Config
    const token: Token
    var isLeader: bool
    var stateUpdatedAt: real
    var lastConfirmedAt: Option<real>
    var serviceRunning: bool

    ghost function View(): Belief
      reads this
    {
      Belief(isLeader, stateUpdatedAt, lastConfirmedAt)
    }

    constructor (config: Config, token: Token, now: real)
      ensures this.config == config && this.token == token
      ensures View() == Belief(false, now, None) && !serviceRunning
    {
      this.config, this.token := config, token;
      isLeader, stateUpdatedAt, lastConfirmedAt, serviceRunning := false, now, None, false;
    }

    method UpdateState(leader: bool, now: real) returns (notify: bool)
      modifies `isLeader, `stateUpdatedAt, `lastConfirmedAt
      ensures View() == Update(old(View()), leader, now)
      ensures notify <==> leader != old(isLeader)
    {
      stateUpdatedAt := now;
      if leader {
        lastConfirmedAt := Some(now);
      } else {
        lastConfirmedAt := None;
      }
      if leader == isLeader {
        return false;
      }
      isLeader := leader;
      return true;
    }

    /** The two ways out of `_try_acquire_or_renew`: a record, or an exception. */
    method AfterCall(holder: Option<Token>, now: real)
      modifies `isLeader, `stateUpdatedAt, `lastConfirmedAt
      ensures holder.Some? ==> View() == OnReply(old(View()), token, holder.value, now)
      ensures holder.None? ==> View() == OnError(config, old(View()), now)
    {
      if holder.None? {
        if now - stateUpdatedAt >= config.renewDeadline {
          var _ := UpdateState(false, now);
        }
      } else {
        var _ := UpdateState(holder.value == token, now);
      }
    }

    method Leads(now: real) returns (r: bool)
      ensures r == IsLeader(config, View(), now)
    {
      r := isLeader && !(now - stateUpdatedAt >= config.renewDeadline);
    }

    method LeadsConfirmedWithin(maxAge: real, now: real) returns (r: bool)
      ensures r == ConfirmedWithin(View(), maxAge, now)
    {
      r := isLeader && lastConfirmedAt.Some? && now - lastConfirmedAt.value <= maxAge;
    }

    /** A second concurrent run is refused; stopping leaves the belief as it was. */
    method BeginService() returns (began: bool)
      modifies `serviceRunning
      ensures began == !old(serviceRunning) && serviceRunning
    {
      began := !serviceRunning;
      serviceRunning := true;
    }

    method EndService()
      modifies `serviceRunning
      ensures !serviceRunning && View() == old(View())
    {
      serviceRunning := false;
    }
  }
}

/**
 Any number of workers, each with its own token, over one atomic lease and one clock. Requests and
 replies travel: a request is served at any moment after it was sent, or never, a request its
 sender gave up on may still be served later, and so may the release of a service that stopped. A
 stopped service may be called again.
 */
module LeaderCluster {
  import opened Options
  import opened Election
  import opened LeaderWorker

  datatype Phase =
    | Unstarted
    | Sleeping
    | Calling(sentAt: real, reply: Option<Token>)
    | Stopped

  /** `stopped`: the service has stopped before, so a release of it may be under way. */
  datatype Worker = Worker(phase: Phase, belief: Belief, stopped: bool)

  predicate Running(w: Worker) { w.phase.Sleeping? || w.phase.Calling? }

  /** `granted` remembers when the backend last granted or renewed the lease of each worker's present service. */
  datatype State = State(now: real, record: Option<Record>, workers: map<Token, Worker>, granted: map<Token, real>)

  datatype Step =
    | Tick(now: real)
    | Start(w: Token)
    | Restart(w: Token)
    | Send(w: Token)
    | Serve(w: Token)
    | ServeLate(w: Token)
    | Deliver(w: Token)
    | Fail(w: Token)
    | Stop(w: Token)
    | ServeRelease(w: Token)

  predicate Enabled(s: State, step: Step) {
    if step.Tick? then s.now <= step.now
    else
      step.w in s.workers &&
      var phase := s.workers[step.w].phase;
      match step
      case Tick(_) => true
      case Start(_) => phase.Unstarted?
      case Restart(_) => phase.Stopped?
      case Send(_) => phase.Sleeping?
      case Serve(_) => phase.Calling? && phase.reply.None?
      case ServeLate(_) => !phase.Unstarted?
      case Deliver(_) => phase.Calling? && phase.reply.Some?
      case Fail(_) => phase.Calling?
      case Stop(_) => Running(s.workers[step.w])
      case ServeRelease(_) => s.workers[step.w].stopped
  }

  function Put(s: State, t: Token, w: Worker): State { s.(workers := s.workers[t := w]) }

  /** The backend handles an acquire-or-renew request of `t` now. */
  function Served(c: Config, s: State, t: Token): State {
    var r := AcquireOrRenew(s.record, t, c.leaseDuration, map[], s.now, s.now);
    s.(record := Some(r), granted := if r.holder == t then s.granted[t := s.now] else s.granted)
  }

  function Do(c: Config, s: State, step: Step): State
    requires Enabled(s, step)
  {
    if step.Tick? then s.(now := step.now)
    else
      var t := step.w;
      var w := s.workers[t];
      match step
      case Tick(_) => s
      case Start(_) => Put(s, t, w.(phase := Sleeping))
      case Restart(_) => Put(s.(granted := s.granted - {t}), t, w.(phase := Sleeping))
      case Send(_) => Put(s, t, w.(phase := Calling(s.now, None)))
      case Serve(_) =>
        var s' := Served(c, s, t);
        Put(s', t, w.(phase := w.phase.(reply := Some(s'.record.value.holder))))
      case ServeLate(_) => Served(c, s, t)
      case Deliver(_) => Put(s, t, w.(phase := Sleeping, belief := OnReply(w.belief, t, w.phase.reply.value, s.now)))
      case Fail(_) => Put(s, t, w.(phase := Sleeping, belief := OnError(c, w.belief, s.now)))
      case Stop(_) => Put(s, t, w.(phase := Stopped, stopped := true))
      case ServeRelease(_) => s.(record := Release(s.record, t, s.now).0)
  }

  /** Any record may be left over from before; no worker has started. */
  predicate Init(s: State) {
    && s.granted == map[]
    && forall t :: t in s.workers ==> Fresh(s.workers[t])
  }

  predicate Fresh(w: Worker) { w.phase.Unstarted? && !w.belief.isLeader && !w.stopped }

  ghost predicate IsRun(c: Config, states: seq<State>, steps: seq<Step>) {
    && |states| == |steps| + 1
    && Init(states[0])
    && forall i :: 0 <= i < |steps| ==> Enabled(states[i], steps[i]) && states[i + 1] == Do(c, states[i], steps[i])
  }

  // ---- What a caller may ask, and what the surroundings promise ----

  /** The two questions a worker answers about itself. */
  datatype Check = Leader | Confirmed(maxAge: real)

  predicate Claims(c: Config, check: Check, b: Belief, now: real) {
    match check
    case Leader => IsLeader(c, b, now)
    case Confirmed(maxAge) => ConfirmedWithin(b, maxAge, now)
  }

  /**
   Replies are handled within `delay` of the request. `quiet`: a service is called again only when
   its old claim has run out. `done`: a release lands before its service is called again.
   */
  datatype Rules = Rules(delay: real, quiet: bool, done: bool)

  predicate Obeys(c: Config, check: Check, rules: Rules, s: State, step: Step) {
    !step.Tick? && step.w in s.workers ==>
      var w := s.workers[step.w];
      && (step.Deliver? && w.phase.Calling? ==> s.now <= w.phase.sentAt + rules.delay)
      && (step.Restart? && rules.quiet ==> !Claims(c, check, w.belief, s.now))
      && (step.ServeRelease? && rules.done ==> w.phase.Stopped?)
  }

  ghost predicate GoodRun(c: Config, check: Check, rules: Rules, states: seq<State>, steps: seq<Step>) {
    IsRun(c, states, steps) && forall i :: 0 <= i < |steps| ==> Obeys(c, check, rules, states[i], steps[i])
  }

  // ---- Invariant ----

  /** While the last grant to a running worker has not lapsed, the stored record is that grant. */
  predicate LeaseStands(c: Config, s: State, t: Token) {
    t in s.workers && Running(s.workers[t]) && t in s.granted && s.now < s.granted[t] + c.leaseDuration ==>
      && s.record.Some? && s.record.value.holder == t
      && s.record.value.renewedAt == s.granted[t] && s.record.value.duration == c.leaseDuration
  }

  /** A running worker claims leadership no longer than the reply delay past the grant behind it. */
  predicate BeliefGrounded(c: Config, check: Check, delay: real, s: State, t: Token)
    requires t in s.workers
  {
    var w := s.workers[t];
    && (w.belief.isLeader ==> w.belief.updatedAt <= s.now && w.belief.confirmedAt == Some(w.belief.updatedAt))
    && (Running(w) && Claims(c, check, w.belief, s.now) ==>
          t in s.granted && w.belief.updatedAt <= s.granted[t] + delay)
    && (w.phase.Unstarted? ==> t !in s.granted && !w.belief.isLeader)
    && (w.phase.Calling? ==> w.phase.sentAt <= s.now)
    && (w.phase.Calling? && w.phase.reply == Some(t) ==> t in s.granted && w.phase.sentAt <= s.granted[t])
  }

  ghost predicate Inv(c: Config, check: Check, delay: real, s: State) {
    && (forall t :: t in s.granted ==> s.granted[t] <= s.now)
    && (forall t :: t in s.workers ==> BeliefGrounded(c, check, delay, s, t))
    && (forall t :: t in s.workers ==> LeaseStands(c, s, t))
  }

  lemma StepKeepsBeliefs(c: Config, check: Check, rules: Rules, s: State, step: Step)
    requires rules.quiet && Inv(c, check, rules.delay, s) && Enabled(s, step) && Obeys(c, check, rules, s, step)
    ensures forall t :: t in Do(c, s, step).workers ==> BeliefGrounded(c, check, rules.delay, Do(c, s, step), t)
  {
    var s' := Do(c, s, step);
    forall t | t in s'.workers ensures BeliefGrounded(c, check, rules.delay, s', t) {
      assert BeliefGrounded(c, check, rules.delay, s, t);
    }
  }

  lemma StepKeepsInv(c: Config, check: Check, rules: Rules, s: State, step: Step)
    requires c.Validates() && rules.quiet && rules.done
    requires Inv(c, check, rules.delay, s) && Enabled(s, step) && Obeys(c, check, rules, s, step)
    ensures Inv(c, check, rules.delay, Do(c, s, step))
  {
    var s' := Do(c, s, step);
    StepKeepsBeliefs(c, check, rules, s, step);
    forall t | t in s'.workers ensures LeaseStands(c, s', t) {
      assert BeliefGrounded(c, check, rules.delay, s, t) && LeaseStands(c, s, t);
    }
  }

  lemma {:induction false} RunKeepsInv(c: Config, check: Check, rules: Rules, states: seq<State>, steps: seq<Step>, k: nat)
    requires c.Validates() && rules.quiet && rules.done && GoodRun(c, check, rules, states, steps) && k < |states|
    ensures Inv(c, check, rules.delay, states[k])
    decreases k
  {
    if k > 0 {
      RunKeepsInv(c, check, rules, states, steps, k - 1);
      StepKeepsInv(c, check, rules, states[k - 1], steps[k - 1]);
    }
  }

  // ---- Safety ----

  predicate RunningClaim(c: Config, check: Check, s: State, t: Token) {
    t in s.workers && Running(s.workers[t]) && Claims(c, check, s.workers[t].belief, s.now)
  }

  ghost predicate OneClaim(c: Config, check: Check, s: State) {
    forall a, b :: RunningClaim(c, check, s, a) && RunningClaim(c, check, s, b) ==> a == b
  }

  /** Nobody can have confirmed leadership a negative time ago. */
  predicate NeverClaims(check: Check) { check.Confirmed? && check.maxAge < 0.0 }

  /** The lease has room for the claim and the reply delay. */
  predicate Fits(c: Config, check: Check, delay: real) {
    match check
    case Leader => c.renewDeadline + delay <= c.leaseDuration
    case Confirmed(maxAge) => maxAge + delay < c.leaseDuration
  }

  /** With that room no state of any such run has two running claims, and a claim has the live record behind it. */
  lemma LeaderSafety(c: Config, check: Check, rules: Rules, states: seq<State>, steps: seq<Step>, k: nat)
    requires c.Validates() && rules.quiet && rules.done && Fits(c, check, rules.delay)
    requires GoodRun(c, check, rules, states, steps) && k < |states|
    ensures OneClaim(c, check, states[k])
    ensures forall t :: RunningClaim(c, check, states[k], t) ==>
              LiveRecord(states[k].record, states[k].now) && states[k].record.value.holder == t
  {
    RunKeepsInv(c, check, rules, states, steps, k);
    var s := states[k];
    forall t | RunningClaim(c, check, s, t)
      ensures LiveRecord(s.record, s.now) && s.record.value.holder == t
    {
      assert BeliefGrounded(c, check, rules.delay, s, t) && LeaseStands(c, s, t);
    }
  }

  lemma {:induction false} BeliefsAreDated(c: Config, states: seq<State>, steps: seq<Step>, k: nat, t: Token)
    requires IsRun(c, states, steps) && k < |states| && t in states[k].workers
    ensures var b := states[k].workers[t].belief;
            b.isLeader ==> b.updatedAt <= states[k].now && b.confirmedAt == Some(b.updatedAt)
    decreases k
  {
    if k > 0 {
      BeliefsAreDated(c, states, steps, k - 1, t);
    }
  }

  lemma NobodyClaims(c: Config, check: Check, states: seq<State>, steps: seq<Step>, k: nat)
    requires IsRun(c, states, steps) && k < |states| && NeverClaims(check)
    ensures OneClaim(c, check, states[k])
  {
    forall t | t in states[k].workers ensures !RunningClaim(c, check, states[k], t) {
      BeliefsAreDated(c, states, steps, k, t);
    }
  }

  // ---- Building runs ----

  function Last(states: seq<State>): State
    requires states != []
  {
    states[|states| - 1]
  }

  lemma Append(c: Config, check: Check, rules: Rules, states: seq<State>, steps: seq<Step>, step: Step)
    returns (states': seq<State>, steps': seq<Step>)
    requires GoodRun(c, check, rules, states, steps)
    requires Enabled(Last(states), step) && Obeys(c, check, rules, Last(states), step)
    ensures GoodRun(c, check, rules, states', steps') && Last(states') == Do(c, Last(states), step)
  {
    states', steps' := states + [Do(c, Last(states), step)], steps + [step];
    forall i | 0 <= i < |steps'|
      ensures Enabled(states'[i], steps'[i]) && states'[i + 1] == Do(c, states'[i], steps'[i])
      ensures Obeys(c, check, rules, states'[i], steps'[i])
    {
      if i < |steps| {
        assert states'[i] == states[i] && steps'[i] == steps[i] && states'[i + 1] == states[i + 1];
        assert Obeys(c, check, rules, states[i], steps[i]);
      }
    }
  }

  function Convinced(w: Worker, now: real): Worker { w.(phase := Sleeping, belief := Belief(true, now, Some(now))) }

  /** A worker takes a free lease, or renews its own, and leads once it handles the reply `wait` later. */
  lemma TakeLead(c: Config, check: Check, rules: Rules, states: seq<State>, steps: seq<Step>, t: Token, wait: real)
    returns (states': seq<State>, steps': seq<Step>)
    requires GoodRun(c, check, rules, states, steps) && 0.0 <= wait <= rules.delay
    requires t in Last(states).workers && Last(states).workers[t].phase.Sleeping?
    requires var s := Last(states); LiveRecord(s.record, s.now) ==> s.record.value.holder == t
    ensures GoodRun(c, check, rules, states', steps')
    ensures var s, s' := Last(states), Last(states');
            && s'.now == s.now + wait
            && s'.workers == s.workers[t := Convinced(s.workers[t], s'.now)]
            && s'.record.Some? && s'.record.value.holder == t
            && s'.record.value.renewedAt == s.now && s'.record.value.duration == c.leaseDuration
  {
    var s := Last(states);
    states', steps' := Append(c, check, rules, states, steps, Send(t));
    states', steps' := Append(c, check, rules, states', steps', Serve(t));
    assert Last(states').workers == s.workers[t := s.workers[t].(phase := Calling(s.now, Some(t)))];
    states', steps' := Append(c, check, rules, states', steps', Tick(s.now + wait));
    states', steps' := Append(c, check, rules, states', steps', Deliver(t));
  }

  /** Requests that fail past the renew deadline leave a worker that claims nothing, until its next grant. */
  lemma FailureWithdraws(c: Config, check: Check, s: State, t: Token, at: real)
    requires Enabled(s, Fail(t)) && s.now <= at
    ensures var before, after := s.workers[t].belief, Do(c, s, Fail(t)).workers[t];
            && Running(after)
            && (Claims(c, check, after.belief, at)
                <==> Claims(c, check, before, at) && (check.Leader? || !DeadlineReached(c, before, s.now)))
  {
    ErrorKeepsAnswers(c, s.workers[t].belief, s.now, if check.Confirmed? then check.maxAge else 0.0, at);
  }

  const IDLE := Worker(Unstarted, Belief(false, 0.0, None), false)

  /** Two workers; `a` has started and leads from `wait` on, by a grant at time 0. */
  lemma FirstLeads(c: Config, check: Check, rules: Rules, wait: real) returns (states: seq<State>, steps: seq<Step>)
    requires 0.0 <= wait <= rules.delay
    ensures GoodRun(c, check, rules, states, steps)
    ensures var s := Last(states);
            && s.now == wait && s.workers == map["a" := Convinced(IDLE, wait), "b" := IDLE]
            && s.record.Some? && s.record.value.holder == "a"
            && s.record.value.renewedAt == 0.0 && s.record.value.duration == c.leaseDuration
  {
    states, steps := [State(0.0, None, map["a" := IDLE, "b" := IDLE], map[])], [];
    states, steps := Append(c, check, rules, states, steps, Start("a"));
    states, steps := TakeLead(c, check, rules, states, steps, "a", wait);
  }

  /** `b` starts and takes the free lease at once. */
  lemma SecondLeads(c: Config, check: Check, rules: Rules, states: seq<State>, steps: seq<Step>)
    returns (states': seq<State>, steps': seq<Step>)
    requires GoodRun(c, check, rules, states, steps) && rules.delay >= 0.0
    requires "b" in Last(states).workers && Last(states).workers["b"] == IDLE
    requires !LiveRecord(Last(states).record, Last(states).now)
    ensures GoodRun(c, check, rules, states', steps')
    ensures var s, s' := Last(states), Last(states');
            s'.now == s.now && s'.workers == s.workers["b" := Convinced(IDLE, s.now)]
  {
    states', steps' := Append(c, check, rules, states, steps, Start("b"));
    states', steps' := TakeLead(c, check, rules, states', steps', "b", 0.0);
  }

  lemma TwoClaims(c: Config, check: Check, s: State)
    requires RunningClaim(c, check, s, "a") && RunningClaim(c, check, s, "b")
    ensures !OneClaim(c, check, s)
  {
    assert "a" != "b";
  }

  /** Without the room: the first worker handles a granted reply as late as allowed, and outlasts its lease. */
  lemma SplitBrain(c: Config, check: Check, rules: Rules) returns (states: seq<State>, steps: seq<Step>)
    requires c.Validates() && rules.delay >= 0.0 && !NeverClaims(check) && !Fits(c, check, rules.delay)
    ensures GoodRun(c, check, rules, states, steps) && !OneClaim(c, check, Last(states))
  {
    var lapse := if rules.delay <= c.leaseDuration then c.leaseDuration else rules.delay;
    states, steps := FirstLeads(c, check, rules, rules.delay);
    states, steps := Append(c, check, rules, states, steps, Tick(lapse));
    states, steps := SecondLeads(c, check, rules, states, steps);
    TwoClaims(c, check, Last(states));
  }

  /** A service called again at once claims what its release gave away. */
  lemma EarlyRestart(c: Config, check: Check, rules: Rules) returns (states: seq<State>, steps: seq<Step>)
    requires c.Validates() && rules.delay >= 0.0 && !NeverClaims(check) && !rules.quiet
    ensures GoodRun(c, check, rules, states, steps) && !OneClaim(c, check, Last(states))
  {
    states, steps := FirstLeads(c, check, rules, 0.0);
    states, steps := Append(c, check, rules, states, steps, Stop("a"));
    states, steps := Append(c, check, rules, states, steps, ServeRelease("a"));
    states, steps := SecondLeads(c, check, rules, states, steps);
    states, steps := Append(c, check, rules, states, steps, Restart("a"));
    TwoClaims(c, check, Last(states));
  }

  /** A release that lands after its service was called again gives away the new lease. */
  lemma LateRelease(c: Config, check: Check, rules: Rules) returns (states: seq<State>, steps: seq<Step>)
    requires c.Validates() && rules.delay >= 0.0 && !NeverClaims(check) && !rules.done
    ensures GoodRun(c, check, rules, states, steps) && !OneClaim(c, check, Last(states))
  {
    var later := c.leaseDuration + (if check.Confirmed? then check.maxAge else 0.0) + 1.0;
    states, steps := FirstLeads(c, check, rules, 0.0);
    states, steps := Append(c, check, rules, states, steps, Stop("a"));
    states, steps := Append(c, check, rules, states, steps, Tick(later));
    states, steps := Append(c, check, rules, states, steps, Restart("a"));
    states, steps := TakeLead(c, check, rules, states, steps, "a", 0.0);
    states, steps := Append(c, check, rules, states, steps, ServeRelease("a"));
    states, steps := SecondLeads(c, check, rules, states, steps);
    TwoClaims(c, check, Last(states));
  }

  ghost predicate AlwaysOne(c: Config, check: Check, rules: Rules) {
    forall states, steps, k :: GoodRun(c, check, rules, states, steps) && 0 <= k < |states| ==> OneClaim(c, check, states[k])
  }

  /**
   Exactly when no run has two running claims, for either question: services are called again only
   when their old claim has run out and their release has landed, and the lease has room for the
   claim and the longest reply delay.
   */
  lemma SafetyExactly(c: Config, check: Check, rules: Rules)
    requires c.Validates() && rules.delay >= 0.0
    ensures AlwaysOne(c, check, rules) <==> NeverClaims(check) || (rules.quiet && rules.done && Fits(c, check, rules.delay))
  {
    if NeverClaims(check) {
      forall states, steps, k | GoodRun(c, check, rules, states, steps) && 0 <= k < |states| ensures OneClaim(c, check, states[k]) {
        NobodyClaims(c, check, states, steps, k);
      }
    } else if rules.quiet && rules.done && Fits(c, check, rules.delay) {
      forall states, steps, k | GoodRun(c, check, rules, states, steps) && 0 <= k < |states| ensures OneClaim(c, check, states[k]) {
        LeaderSafety(c, check, rules, states, steps, k);
      }
    } else {
      var states, steps := Counterexample(c, check, rules);
      assert !OneClaim(c, check, states[|states| - 1]);
    }
  }

  lemma Counterexample(c: Config, check: Check, rules: Rules) returns (states: seq<State>, steps: seq<Step>)
    requires c.Validates() && rules.delay >= 0.0 && !NeverClaims(check)
    requires !(rules.quiet && rules.done && Fits(c, check, rules.delay))
    ensures GoodRun(c, check, rules, states, steps) && !OneClaim(c, check, Last(states))
  {
    if !rules.quiet {
      states, steps := EarlyRestart(c, check, rules);
    } else if !rules.done {
      states, steps := LateRelease(c, check, rules);
    } else {
      states, steps := SplitBrain(c, check, rules);
    }
  }

  /** `is_leader` without `is_running` is never enough: a stopped worker keeps its belief. */
  lemma StoppedWorkerStillBelieves(c: Config, rules: Rules) returns (states: seq<State>, steps: seq<Step>)
    requires c.Validates() && rules.delay >= 0.0
    ensures GoodRun(c, Leader, rules, states, steps)
    ensures "a" in Last(states).workers && IsLeader(c, Last(states).workers["a"].belief, Last(states).now)
    ensures RunningClaim(c, Leader, Last(states), "b")
  {
    states, steps := FirstLeads(c, Leader, rules, 0.0);
    states, steps := Append(c, Leader, rules, states, steps, Stop("a"));
    states, steps := Append(c, Leader, rules, states, steps, ServeRelease("a"));
    states, steps := SecondLeads(c, Leader, rules, states, steps);
  }
}
