/** One `TaskLock` object: its acquisition time and token nonce, cut at the backend calls. */
module TaskLockObject {
  import opened Options

  /** What an exit asks of the backend. */
  datatype Command = ReleaseNow | HoldFor(duration: real)

  datatype Inst = Inst(acquiredAt: Option<real>, nonce: nat)

  /** The exit decision: release once the minimum hold has passed, else keep the rest of it. */
  function ExitCommand(acquiredAt: real, minHold: real, now: real): (r: Command)
    ensures r == ReleaseNow ==> acquiredAt + minHold <= now
    ensures r.HoldFor? ==> r.duration > 0.0 && now + r.duration == acquiredAt + minHold
  {
    if now - acquiredAt >= minHold then ReleaseNow else HoldFor(minHold - (now - acquiredAt))
  }

  class TaskLock {
    var acquiredAt: Option<real>
    var nonce: nat

    ghost function View(): Inst
      reads this
    {
      Inst(acquiredAt, nonce)
    }

    constructor (nonce: nat)
      ensures View() == Inst(None, nonce)
    {
      acquiredAt, this.nonce := None, nonce;
    }

    /** Entering is refused while acquired; otherwise the current nonce goes into the token. */
    method BeginEnter() returns (tokenNonce: Option<nat>)
      ensures tokenNonce == (if View().acquiredAt.Some? then None else Some(View().nonce))
    {
      if acquiredAt.Some? {
        return None;
      }
      return Some(nonce);
    }

    method EndEnter(granted: bool, now: real)
      modifies `acquiredAt
      ensures View() == (if granted then Inst(Some(now), old(View()).nonce) else old(View()))
    {
      if granted {
        acquiredAt := Some(now);
      }
    }

    /** The nonce is renewed before the backend is called, so a later entry has another token. */
    method BeginExit(minHold: real, fresh_: nat, now: real) returns (command: Option<Command>)
      modifies this
      ensures command.None? <==> old(View()).acquiredAt.None?
      ensures command.None? ==> View() == old(View())
      ensures command.Some? ==> command.value == ExitCommand(old(View()).acquiredAt.value, minHold, now)
      ensures command.Some? ==> View() == Inst(None, fresh_)
    {
      if acquiredAt.None? {
        return None;
      }
      var elapsed := now - acquiredAt.value;
      acquiredAt, nonce := None, fresh_;
      if elapsed >= minHold {
        return Some(ReleaseNow);
      }
      return Some(HoldFor(minHold - elapsed));
    }
  }
}

/**
 Any number of `TaskLock` objects and tasks on one lease. Requests land at any moment after they
 were sent, possibly never and possibly again, and replies are handled with any delay.
 */
module TaskLockRuns {
  import opened Options
  import opened Leases
  import opened TaskLockObject

  type Id = nat

  /** Who a token was made for; the token rendering tells origins apart. */
  datatype Origin = Origin(inst: Id, task: Id, nonce: nat)

  datatype Config = Config(boundary: Boundary, minHold: real, lease: real, token: Origin -> Token) {
    ghost predicate Valid() {
      && 0.0 < minHold <= lease
      && forall o, p :: token(o) == token(p) ==> o == p
    }
  }

  datatype Phase =
    | Outside
    | Entering(inst: Id, nonce: nat, request: nat, grant: Option<real>)
    | Inside(inst: Id, handledAt: real)

  /** `request` ties an entry request to its reply; exits and refreshes have none. */
  datatype Msg =
    | Ask(origin: Origin, duration: real, sentAt: real, request: Option<nat>)
    | Shorten(origin: Origin, duration: real, sentAt: real)
    | Free(origin: Origin, sentAt: real)

  /** A grant the backend made to an entry request, at backend time `at`. */
  datatype Grant = Grant(origin: Origin, at: real)

  datatype State = State(
    now: real, lease: Lease, insts: map<Id, Inst>, tasks: map<Id, Phase>, msgs: set<Msg>,
    unused: nat, grants: seq<Grant>, entries: seq<Grant>)

  datatype Step =
    | Tick(now: real)
    | BeginEnter(task: Id, inst: Id)
    | Land(msg: Msg)
    | EndEnter(task: Id)
    | GiveUp(task: Id)
    | Refresh(task: Id, inst: Id)
    | Exit(task: Id)

  predicate Enabled(s: State, step: Step) {
    match step
    case Tick(now) => s.now <= now
    case BeginEnter(t, i) =>
      t in s.tasks && s.tasks[t].Outside? && i in s.insts && s.insts[i].acquiredAt.None?
    case Land(m) => m in s.msgs
    case EndEnter(t) => t in s.tasks && s.tasks[t].Entering? && s.tasks[t].grant.Some? && s.tasks[t].inst in s.insts
    case GiveUp(t) => t in s.tasks && s.tasks[t].Entering?
    case Refresh(t, i) => i in s.insts && s.insts[i].acquiredAt.Some?
    case Exit(t) => t in s.tasks && s.tasks[t].Inside? && s.tasks[t].inst in s.insts
  }

  /** Does this landing answer the request a task is waiting on? */
  predicate Answers(s: State, m: Msg) {
    && m.Ask? && m.request.Some? && m.origin.task in s.tasks
    && var p := s.tasks[m.origin.task];
       p.Entering? && p.inst == m.origin.inst && p.nonce == m.origin.nonce
       && p.request == m.request.value && p.grant.None?
  }

  function LandOn(c: Config, s: State, m: Msg): State {
    if m.Free? then s.(lease := Release(c.boundary, s.lease, c.token(m.origin), s.now).0)
    else
      var (lease, fence) := Acquire(c.boundary, s.lease, c.token(m.origin), s.now + m.duration, s.now);
      var s' := s.(lease := lease);
      if fence.Some? && Answers(s, m) then
        s'.(tasks := s.tasks[m.origin.task := s.tasks[m.origin.task].(grant := Some(s.now))],
            grants := s.grants + [Grant(m.origin, s.now)])
      else s'
  }

  function ExitOf(c: Config, s: State, t: Id): State
    requires Enabled(s, Exit(t))
  {
    var i := s.tasks[t].inst;
    var inst := s.insts[i];
    var s' := s.(tasks := s.tasks[t := Outside]);
    if inst.acquiredAt.None? then s'
    else
      var o := Origin(i, t, inst.nonce);
      var cmd := ExitCommand(inst.acquiredAt.value, c.minHold, s.now);
      s'.(insts := s.insts[i := Inst(None, s.unused)], unused := s.unused + 1,
          msgs := s.msgs + {if cmd.HoldFor? then Shorten(o, cmd.duration, s.now) else Free(o, s.now)})
  }

  function Do(c: Config, s: State, step: Step): State
    requires Enabled(s, step)
  {
    match step
    case Tick(now) => s.(now := now)
    case BeginEnter(t, i) =>
      s.(tasks := s.tasks[t := Entering(i, s.insts[i].nonce, s.unused, None)], unused := s.unused + 1,
         msgs := s.msgs + {Ask(Origin(i, t, s.insts[i].nonce), c.lease, s.now, Some(s.unused))})
    case Land(m) => LandOn(c, s, m)
    case EndEnter(t) =>
      var p := s.tasks[t];
      s.(tasks := s.tasks[t := Inside(p.inst, s.now)],
         insts := s.insts[p.inst := s.insts[p.inst].(acquiredAt := Some(s.now))],
         entries := s.entries + [Grant(Origin(p.inst, t, p.nonce), p.grant.value)])
    case GiveUp(t) => s.(tasks := s.tasks[t := Outside])
    case Refresh(t, i) =>
      s.(msgs := s.msgs + {Ask(Origin(i, t, s.insts[i].nonce), c.lease, s.now, None)})
    case Exit(t) => ExitOf(c, s, t)
  }

  ghost predicate Init(s: State) {
    && s.msgs == {} && s.grants == [] && s.entries == []
    && (forall i :: i in s.insts ==> s.insts[i].acquiredAt.None? && s.insts[i].nonce < s.unused)
    && (forall t :: t in s.tasks ==> s.tasks[t].Outside?)
  }

  ghost predicate IsRun(c: Config, states: seq<State>, steps: seq<Step>) {
    && |states| == |steps| + 1
    && Init(states[0])
    && forall k :: 0 <= k < |steps| ==> Enabled(states[k], steps[k]) && states[k + 1] == Do(c, states[k], steps[k])
  }

  // ---- Invariant ----

  predicate InstFine(s: State, i: Id)
    requires i in s.insts
  {
    s.insts[i].nonce < s.unused && (s.insts[i].acquiredAt.Some? ==> s.insts[i].acquiredAt.value <= s.now)
  }

  predicate TaskFine(s: State, t: Id)
    requires t in s.tasks
  {
    var p := s.tasks[t];
    match p
    case Outside => true
    case Entering(i, n, r, g) =>
      && i in s.insts && n <= s.insts[i].nonce
      && (g.Some? ==> Grant(Origin(i, t, n), g.value) in s.grants)
    case Inside(i, h) =>
      i in s.insts && h <= s.now && (s.insts[i].acquiredAt.Some? ==> h <= s.insts[i].acquiredAt.value)
  }

  /** Until the minimum hold after a grant has passed, the lease is its holder's and long enough. */
  predicate Protected(c: Config, s: State, g: Grant) {
    && g.at <= s.now
    && (s.now < g.at + c.minHold ==>
          && s.lease.hold.Some? && s.lease.hold.value.token == c.token(g.origin)
          && g.at + c.minHold <= s.lease.hold.value.expireAt)
    && (g.origin.task in s.tasks && s.tasks[g.origin.task].Inside? ==> g.at <= s.tasks[g.origin.task].handledAt)
  }

  /** The nonce an exit was made with is never entered with again by that task. */
  predicate Retired(s: State, o: Origin) {
    && o.inst in s.insts && o.nonce < s.insts[o.inst].nonce
    && (o.task in s.tasks && s.tasks[o.task].Entering? && s.tasks[o.task].inst == o.inst ==>
          o.nonce < s.tasks[o.task].nonce)
  }

  /** Landing this message, now or later, keeps every grant of its origin for the minimum hold. */
  ghost predicate MsgFine(c: Config, s: State, m: Msg) {
    && m.sentAt <= s.now
    && match m
       case Ask(_, d, _, _) => d == c.lease
       case Shorten(o, d, at) =>
         Retired(s, o) && forall g :: g in s.grants && g.origin == o ==> g.at + c.minHold <= at + d
       case Free(o, at) =>
         Retired(s, o) && forall g :: g in s.grants && g.origin == o ==> g.at + c.minHold <= at
  }

  predicate EntryFine(s: State, e: Grant) {
    && e in s.grants
    && e.origin.inst in s.insts && e.origin.nonce <= s.insts[e.origin.inst].nonce
    && (e.origin.nonce == s.insts[e.origin.inst].nonce ==> s.insts[e.origin.inst].acquiredAt.Some?)
    && (e.origin.task in s.tasks && s.tasks[e.origin.task].Entering? && s.tasks[e.origin.task].inst == e.origin.inst ==>
          e.origin.nonce < s.tasks[e.origin.task].nonce)
  }

  predicate Apart(c: Config, g: Grant, h: Grant) {
    g.at + c.minHold <= h.at || h.at + c.minHold <= g.at
  }

  ghost predicate Inv(c: Config, s: State) {
    && (forall i :: i in s.insts ==> InstFine(s, i))
    && (forall t :: t in s.tasks ==> TaskFine(s, t))
    && (forall m :: m in s.msgs ==> MsgFine(c, s, m))
    && (forall g :: g in s.grants ==> Protected(c, s, g))
    && (forall g, h :: g in s.grants && h in s.grants && g.origin != h.origin ==> Apart(c, g, h))
    && (forall e :: e in s.entries ==> EntryFine(s, e))
    && (forall k, l :: 0 <= k < l < |s.entries| ==> s.entries[k].origin != s.entries[l].origin)
  }

  lemma LandKeepsGrants(c: Config, s: State, m: Msg)
    requires c.Valid() && Inv(c, s) && m in s.msgs
    ensures var s' := LandOn(c, s, m);
            && (forall g :: g in s'.grants ==> Protected(c, s', g))
            && (forall g, h :: g in s'.grants && h in s'.grants && g.origin != h.origin ==> Apart(c, g, h))
  {
    var s' := LandOn(c, s, m);
    assert MsgFine(c, s, m);
    forall g | g in s.grants ensures Protected(c, s', g) {
      assert Protected(c, s, g);
    }
    forall g, h | g in s'.grants && h in s'.grants && g.origin != h.origin ensures Apart(c, g, h) {
      assert g in s.grants ==> Protected(c, s, g);
      assert h in s.grants ==> Protected(c, s, h);
    }
  }

  lemma LandKeepsRest(c: Config, s: State, m: Msg)
    requires c.Valid() && Inv(c, s) && m in s.msgs
    ensures var s' := LandOn(c, s, m);
            && (forall i :: i in s'.insts ==> InstFine(s', i))
            && (forall t :: t in s'.tasks ==> TaskFine(s', t))
            && (forall w :: w in s'.msgs ==> MsgFine(c, s', w))
            && (forall e :: e in s'.entries ==> EntryFine(s', e))
  {
    var s' := LandOn(c, s, m);
    forall t | t in s'.tasks ensures TaskFine(s', t) {
      assert TaskFine(s, t);
    }
    forall w | w in s'.msgs ensures MsgFine(c, s', w) {
      assert MsgFine(c, s, w);
    }
    forall e | e in s'.entries ensures EntryFine(s', e) {
      assert EntryFine(s, e);
    }
  }

  lemma OtherStepsKeepTasks(c: Config, s: State, step: Step)
    requires c.Valid() && Inv(c, s) && Enabled(s, step) && !step.Land?
    ensures var s' := Do(c, s, step);
            && (forall i :: i in s'.insts ==> InstFine(s', i))
            && (forall t :: t in s'.tasks ==> TaskFine(s', t))
  {
    var s' := Do(c, s, step);
    forall t | t in s'.tasks ensures TaskFine(s', t) {
      assert TaskFine(s, t);
    }
  }

  lemma OtherStepsKeepGrants(c: Config, s: State, step: Step)
    requires c.Valid() && Inv(c, s) && Enabled(s, step) && !step.Land?
    ensures var s' := Do(c, s, step);
            s'.grants == s.grants && forall g :: g in s'.grants ==> Protected(c, s', g)
  {
    var s' := Do(c, s, step);
    forall g | g in s'.grants ensures Protected(c, s', g) {
      assert Protected(c, s, g);
    }
  }

  lemma OtherStepsKeepMsgs(c: Config, s: State, step: Step)
    requires c.Valid() && Inv(c, s) && Enabled(s, step) && !step.Land?
    ensures var s' := Do(c, s, step); forall m :: m in s'.msgs ==> MsgFine(c, s', m)
  {
    var s' := Do(c, s, step);
    forall m | m in s'.msgs ensures MsgFine(c, s', m) {
      if m in s.msgs {
        assert MsgFine(c, s, m);
      } else if step.Exit? {
        ExitMsgFine(c, s, step.task);
      }
    }
  }

  /** The message an exit sends cannot cut short any grant made to the exiting task's token. */
  lemma ExitMsgFine(c: Config, s: State, t: Id)
    requires c.Valid() && Inv(c, s) && Enabled(s, Exit(t))
    ensures forall m :: m in ExitOf(c, s, t).msgs && m !in s.msgs ==> MsgFine(c, ExitOf(c, s, t), m)
  {
    assert TaskFine(s, t);
    forall g | g in s.grants && g.origin.task == t ensures g.at <= s.tasks[t].handledAt {
      assert Protected(c, s, g);
    }
  }

  lemma OtherStepsKeepEntries(c: Config, s: State, step: Step)
    requires c.Valid() && Inv(c, s) && Enabled(s, step) && !step.Land?
    ensures var s' := Do(c, s, step);
            && (forall e :: e in s'.entries ==> EntryFine(s', e))
            && (forall k, l :: 0 <= k < l < |s'.entries| ==> s'.entries[k].origin != s'.entries[l].origin)
  {
    var s' := Do(c, s, step);
    forall e | e in s'.entries ensures EntryFine(s', e) {
      if e in s.entries {
        assert EntryFine(s, e);
      } else {
        assert TaskFine(s, step.task);
      }
    }
    forall k, l | 0 <= k < l < |s'.entries| ensures s'.entries[k].origin != s'.entries[l].origin {
      assert EntryFine(s, s.entries[k]);
    }
  }

  lemma {:induction false} RunKeepsInv(c: Config, states: seq<State>, steps: seq<Step>, k: nat)
    requires c.Valid() && IsRun(c, states, steps) && k < |states|
    ensures Inv(c, states[k])
    decreases k
  {
    if k > 0 {
      RunKeepsInv(c, states, steps, k - 1);
      if steps[k - 1].Land? {
        LandKeepsGrants(c, states[k - 1], steps[k - 1].msg);
        LandKeepsRest(c, states[k - 1], steps[k - 1].msg);
      } else {
        OtherStepsKeepTasks(c, states[k - 1], steps[k - 1]);
        OtherStepsKeepGrants(c, states[k - 1], steps[k - 1]);
        OtherStepsKeepMsgs(c, states[k - 1], steps[k - 1]);
        OtherStepsKeepEntries(c, states[k - 1], steps[k - 1]);
      }
    }
  }

  /**
   Minimum hold: in every run, any two entries, by any tasks through any `TaskLock` objects, one
   object entered again included, were granted by the backend at least `minHold` apart.
   */
  lemma MinimumHold(c: Config, states: seq<State>, steps: seq<Step>, k: nat, p: nat, q: nat)
    requires c.Valid() && IsRun(c, states, steps) && k < |states|
    requires p < q < |states[k].entries|
    ensures Apart(c, states[k].entries[p], states[k].entries[q])
  {
    RunKeepsInv(c, states, steps, k);
    assert EntryFine(states[k], states[k].entries[p]) && EntryFine(states[k], states[k].entries[q]);
  }

  /** Nobody else is granted anything during the minimum hold after an entry. */
  lemma HoldIsExclusive(c: Config, states: seq<State>, steps: seq<Step>, k: nat, p: nat, o: Origin, until: real)
    requires c.Valid() && IsRun(c, states, steps) && k < |states|
    requires p < |states[k].entries| && states[k].now < states[k].entries[p].at + c.minHold
    requires o != states[k].entries[p].origin
    ensures Acquire(c.boundary, states[k].lease, c.token(o), until, states[k].now).1.None?
  {
    RunKeepsInv(c, states, steps, k);
    var e := states[k].entries[p];
    assert EntryFine(states[k], e);
    assert Protected(c, states[k], e);
  }

  // ---- What entries and exits achieve ----

  /** The token of the entry that task `t` is in. */
  function TokenOf(c: Config, s: State, t: Id): Token
    requires Enabled(s, Exit(t))
  {
    c.token(Origin(s.tasks[t].inst, t, s.insts[s.tasks[t].inst].nonce))
  }

  /** The state when the landing of `m` meets an otherwise unchanged lock at `later`. */
  function LandedAt(c: Config, s: State, m: Msg, later: real): State { LandOn(c, s.(now := later), m) }

  /** An exit past the minimum hold sends a message that frees the lock whenever it lands. */
  lemma ExitFrees(c: Config, s: State, t: Id) returns (m: Msg)
    requires Enabled(s, Exit(t)) && s.insts[s.tasks[t].inst].acquiredAt.Some?
    requires s.insts[s.tasks[t].inst].acquiredAt.value + c.minHold <= s.now
    requires HeldBy(c.boundary, s.lease, TokenOf(c, s, t), s.now)
    ensures m in Do(c, s, Exit(t)).msgs
    ensures forall later :: s.now <= later ==> !Held(c.boundary, LandedAt(c, Do(c, s, Exit(t)), m, later).lease, later)
  {
    m := Free(Origin(s.tasks[t].inst, t, s.insts[s.tasks[t].inst].nonce), s.now);
  }

  /**
   An earlier exit sends a message that keeps the lock for its own token: landing at once, until
   exactly the minimum hold after the local start, and to the rest of it after a later landing.
   */
  lemma ExitHolds(c: Config, s: State, t: Id) returns (m: Msg)
    requires Enabled(s, Exit(t)) && s.insts[s.tasks[t].inst].acquiredAt.Some?
    requires s.now < s.insts[s.tasks[t].inst].acquiredAt.value + c.minHold
    ensures m in Do(c, s, Exit(t)).msgs
    ensures var end, s' := s.insts[s.tasks[t].inst].acquiredAt.value + c.minHold, Do(c, s, Exit(t));
            forall later :: HeldBy(c.boundary, s.lease, TokenOf(c, s, t), later) ==>
              LandedAt(c, s', m, later).lease.hold == Some(Hold(TokenOf(c, s, t), end + (later - s.now)))
  {
    var start := s.insts[s.tasks[t].inst].acquiredAt.value;
    m := Shorten(Origin(s.tasks[t].inst, t, s.insts[s.tasks[t].inst].nonce), c.minHold - (s.now - start), s.now);
  }

  /** Either way the object is free to be entered again, under another nonce. */
  lemma ExitResets(c: Config, s: State, t: Id)
    requires Enabled(s, Exit(t)) && InstFine(s, s.tasks[t].inst)
    ensures var i, s' := s.tasks[t].inst, Do(c, s, Exit(t));
            && s'.tasks[t].Outside? && s'.insts[i].acquiredAt.None?
            && (s.insts[i].acquiredAt.Some? ==> s'.insts[i].nonce != s.insts[i].nonce)
            && forall j :: j in s.insts && j != i ==> s'.insts[j] == s.insts[j]
  {
  }

  /** The request an entry sends. */
  function Request(c: Config, s: State, t: Id, i: Id): Msg
    requires Enabled(s, BeginEnter(t, i))
  {
    Ask(Origin(i, t, s.insts[i].nonce), c.lease, s.now, Some(s.unused))
  }

  /** Entering a free lock, with nothing in between, succeeds and holds it for the whole lease. */
  lemma FreeLockAdmits(c: Config, s: State, t: Id, i: Id)
    requires Enabled(s, BeginEnter(t, i)) && !Held(c.boundary, s.lease, s.now)
    ensures var s1, m := Do(c, s, BeginEnter(t, i)), Request(c, s, t, i);
            && Enabled(s1, Land(m))
            && var s2 := Do(c, s1, Land(m));
               && Enabled(s2, EndEnter(t))
               && var s3 := Do(c, s2, EndEnter(t));
                  && s3.tasks[t] == Inside(i, s.now) && s3.insts[i].acquiredAt == Some(s.now)
                  && s3.entries == s.entries + [Grant(m.origin, s.now)]
                  && s3.lease.hold == Some(Hold(c.token(m.origin), s.now + c.lease))
  {
  }

  /** Entering a lock that another token holds does nothing but leave the caller to give up. */
  lemma HeldLockRefuses(c: Config, s: State, t: Id, i: Id)
    requires Enabled(s, BeginEnter(t, i)) && Held(c.boundary, s.lease, s.now)
    requires s.lease.hold.value.token != c.token(Request(c, s, t, i).origin)
    ensures var s2 := LandOn(c, Do(c, s, BeginEnter(t, i)), Request(c, s, t, i));
            && s2.lease == s.lease && s2.grants == s.grants && !Enabled(s2, EndEnter(t)) && Enabled(s2, GiveUp(t))
  {
  }

  /** A refresh that lands while its token holds the lock holds it for the whole lease again. */
  lemma RefreshExtends(c: Config, s: State, t: Id, i: Id) returns (m: Msg)
    requires Enabled(s, Refresh(t, i))
    ensures m in Do(c, s, Refresh(t, i)).msgs
    ensures var token := c.token(Origin(i, t, s.insts[i].nonce));
            forall later :: HeldBy(c.boundary, s.lease, token, later) ==>
              LandedAt(c, Do(c, s, Refresh(t, i)), m, later).lease.hold == Some(Hold(token, later + c.lease))
  {
    m := Ask(Origin(i, t, s.insts[i].nonce), c.lease, s.now, None);
  }
}
