/** The leader record and the acquire-or-renew step shared by the election backends. */
module Election {
  import opened Options

  type Token = string
  type Metadata = map<string, string>

  datatype Record = Record(holder: Token, duration: real, acquiredAt: real, renewedAt: real,
                           transitions: nat, metadata: Metadata)

  predicate Live(r: Record, now: real) { now < r.renewedAt + r.duration }

  predicate LiveRecord(r: Option<Record>, now: real) { r.Some? && Live(r.value, now) }

  /** The record stored and returned: `now` decides whether the lease is live, `stamp` dates it. */
  function AcquireOrRenew(rec: Option<Record>, token: Token, duration: real, metadata: Metadata,
                          stamp: real, now: real): Record
  {
    if LiveRecord(rec, now) then
      if rec.value.holder != token then rec.value
      else rec.value.(renewedAt := stamp, duration := duration, metadata := metadata)
    else
      var transitions :=
        if rec.None? then 0
        else if rec.value.holder == token then rec.value.transitions
        else rec.value.transitions + 1;
      Record(token, duration, stamp, stamp, transitions, metadata)
  }

  function Release(rec: Option<Record>, token: Token, now: real): (Option<Record>, bool) {
    if LiveRecord(rec, now) && rec.value.holder == token then (None, true) else (rec, false)
  }

  // ---- Tenure history over whole runs ----

  datatype Event =
    | Try(token: Token, duration: real, metadata: Metadata, now: real)
    | Leave(token: Token, now: real)

  function StepRecord(rec: Option<Record>, e: Event): Option<Record> {
    match e
    case Try(t, d, m, now) => Some(AcquireOrRenew(rec, t, d, m, now, now))
    case Leave(t, now) => Release(rec, t, now).0
  }

  /** The stored record just before event `k` of a run that starts with none. */
  function RecordAt(run: seq<Event>, k: nat): Option<Record>
    requires k <= |run|
  {
    if k == 0 then None else StepRecord(RecordAt(run, k - 1), run[k - 1])
  }

  /** Event `k` hands leadership to its caller. */
  predicate Leads(run: seq<Event>, k: nat)
    requires k < |run|
  {
    run[k].Try? && RecordAt(run, k + 1).value.holder == run[k].token
  }

  /** The callers granted leadership since the last effective release, in order. */
  function Grants(run: seq<Event>, k: nat): seq<Token>
    requires k <= |run|
  {
    if k == 0 then []
    else if run[k - 1].Leave? && Release(RecordAt(run, k - 1), run[k - 1].token, run[k - 1].now).1 then []
    else Grants(run, k - 1) + (if Leads(run, k - 1) then [run[k - 1].token] else [])
  }

  /** How often consecutive entries differ. */
  function Changes(ts: seq<Token>): nat {
    if |ts| < 2 then 0
    else Changes(ts[..|ts| - 1]) + (if ts[|ts| - 2] == ts[|ts| - 1] then 0 else 1)
  }

  /**
   In every run, `transitions` counts the holder changes among the grants since the last release,
   and the stored holder is the latest grantee.
   */
  lemma {:induction false} TransitionsCountChanges(run: seq<Event>, k: nat)
    requires k <= |run|
    ensures RecordAt(run, k).None? <==> Grants(run, k) == []
    ensures RecordAt(run, k).Some? ==>
              && RecordAt(run, k).value.transitions == Changes(Grants(run, k))
              && RecordAt(run, k).value.holder == Grants(run, k)[|Grants(run, k)| - 1]
    decreases k
  {
    if k > 0 {
      TransitionsCountChanges(run, k - 1);
      var before, after := Grants(run, k - 1), Grants(run, k);
      if Leads(run, k - 1) {
        assert after[..|after| - 1] == before;
      } else if !(run[k - 1].Leave? && Release(RecordAt(run, k - 1), run[k - 1].token, run[k - 1].now).1) {
        assert after == before;
      }
    }
  }

  /**
   A holder that comes back after its lease lapsed, untaken, starts a new tenure that is not
   counted; the documentation has every acquisition from an expired holder bump the count.
   */
  lemma ReturnIsNotCounted(token: Token, duration: real, metadata: Metadata, later: real)
    requires duration <= later
    ensures var run := [Try(token, duration, metadata, 0.0), Try(token, duration, metadata, later)];
            && RecordAt(run, 1).Some? && !LiveRecord(RecordAt(run, 1), later)
            && RecordAt(run, 2).Some? && RecordAt(run, 2).value.acquiredAt == later
            && RecordAt(run, 2).value.transitions == RecordAt(run, 1).value.transitions == 0
  {
    var run := [Try(token, duration, metadata, 0.0), Try(token, duration, metadata, later)];
    assert RecordAt(run, 1) == StepRecord(RecordAt(run, 0), run[0]);
    assert RecordAt(run, 2) == StepRecord(RecordAt(run, 1), run[1]);
  }

  /** Event `m` finds the lease live and does not give it up. */
  predicate Continues(run: seq<Event>, m: nat)
    requires m < |run|
  {
    LiveRecord(RecordAt(run, m), run[m].now) && RecordAt(run, m + 1).Some?
  }

  /** The lease never lapses and is never released between events `i` and `j`. */
  ghost predicate Uninterrupted(run: seq<Event>, i: nat, j: nat)
    requires i <= j <= |run|
  {
    && RecordAt(run, i).Some?
    && forall m :: i <= m < j ==> Continues(run, m)
  }

  /** Through an uninterrupted tenure neither holder, start nor transition count move. */
  lemma {:induction false} TenureIsConstant(run: seq<Event>, i: nat, j: nat)
    requires i <= j <= |run| && Uninterrupted(run, i, j)
    ensures RecordAt(run, j).Some?
    ensures RecordAt(run, j).value.holder == RecordAt(run, i).value.holder
    ensures RecordAt(run, j).value.acquiredAt == RecordAt(run, i).value.acquiredAt
    ensures RecordAt(run, j).value.transitions == RecordAt(run, i).value.transitions
    decreases j
  {
    if i < j {
      TenureIsConstant(run, i, j - 1);
      assert Continues(run, j - 1);
    }
  }

  /** Who does not lead is shown the live foreign record, and nothing changes. */
  lemma FollowerSeesLeader(run: seq<Event>, k: nat)
    requires k < |run| && run[k].Try? && !Leads(run, k)
    ensures LiveRecord(RecordAt(run, k), run[k].now) && RecordAt(run, k).value.holder != run[k].token
    ensures RecordAt(run, k + 1) == RecordAt(run, k)
  {
    assert RecordAt(run, k + 1) == StepRecord(RecordAt(run, k), run[k]);
  }

}

/** The in-memory election backend. */
module MemoryElection {
  import opened Options
  import opened Election

  class MemoryLeaderElectionAdapter {
    var records: map<string, Record>

    ghost function View(n: string): Option<Record>
      reads this
    {
      if n in records then Some(records[n]) else None
    }

    constructor ()
      ensures forall n :: View(n) == None
    {
      records := map[];
    }

    method LiveOf(name: string, now: real) returns (r: Option<Record>)
      ensures r == (if LiveRecord(View(name), now) then View(name) else None)
    {
      if name !in records || now >= records[name].renewedAt + records[name].duration {
        return None;
      }
      return Some(records[name]);
    }

    /** The stamp is read first, liveness is judged at the second reading `now`. */
    method AcquireOrRenew(name: string, token: Token, duration: real, metadata: Metadata, stamp: real, now: real)
      returns (r: Record)
      requires stamp <= now
      modifies this
      ensures r == Election.AcquireOrRenew(old(View(name)), token, duration, metadata, stamp, now)
      ensures View(name) == Some(r)
      ensures forall n :: n != name ==> View(n) == old(View(n))
    {
      var live := LiveOf(name, now);
      if live.Some? && live.value.holder != token {
        return live.value;
      }
      if live.Some? {
        r := live.value.(renewedAt := stamp, duration := duration, metadata := metadata);
      } else {
        var transitions := 0;
        if name in records {
          transitions := records[name].transitions + (if records[name].holder == token then 0 else 1);
        }
        r := Record(token, duration, stamp, stamp, transitions, metadata);
      }
      records := records[name := r];
    }

    method Release(name: string, token: Token, now: real) returns (released: bool)
      modifies this
      ensures (View(name), released) == Election.Release(old(View(name)), token, now)
      ensures forall n :: n != name ==> View(n) == old(View(n))
    {
      var live := LiveOf(name, now);
      if live.Some? && live.value.holder == token {
        records := records - {name};
        return true;
      }
      return false;
    }
  }
}

/** The two server-side election scripts compute the same step as the in-memory adapter. */
module ElectionScripts {
  import opened Options
  import opened Election
  import opened ThreeValued

  /** The Redis hash, field by field; an absent `holder` means the key was never written. */
  datatype Hash = Hash(holder: Option<Token>, duration: real, acquiredAt: real, renewedAt: real,
                       transitions: nat, metadata: Metadata)

  function RecordOfHash(h: Hash): Option<Record> {
    if h.holder.None? then None
    else Some(Record(h.holder.value, h.duration, h.acquiredAt, h.renewedAt, h.transitions, h.metadata))
  }

  function RedisAcquireOrRenew(stored: Hash, token: Token, duration: real, metadata: Metadata, now: real): Hash {
    if stored.holder.None? then Hash(Some(token), duration, now, now, 0, metadata)
    else
      var live := now < stored.renewedAt + stored.duration;
      if live && stored.holder.value != token then stored
      else if live then stored.(duration := duration, renewedAt := now, metadata := metadata)
      else
        var transitions := if stored.holder.value != token then stored.transitions + 1 else stored.transitions;
        Hash(Some(token), duration, now, now, transitions, metadata)
  }

  /** The columns the PL/pgSQL function selects; all NULL when there is no row. */
  datatype Columns = Columns(holder: Option<Token>, duration: Option<real>, acquiredAt: Option<real>,
                             renewedAt: Option<real>, transitions: Option<nat>)

  function Select(row: Option<Record>): Columns {
    if row.None? then Columns(None, None, None, None, None)
    else Columns(Some(row.value.holder), Some(row.value.duration), Some(row.value.acquiredAt),
                 Some(row.value.renewedAt), Some(row.value.transitions))
  }

  function Not(p: Truth): Truth { if p == True then False else if p == False then True else Unknown }

  /** `v_now >= v_renewed_at + v_lease_duration`, unknown when a column is NULL. */
  function Expired(c: Columns, now: real): Truth {
    Or(IsNull(c.holder),
       if c.renewedAt.None? || c.duration.None? then Unknown else Of(now >= c.renewedAt.value + c.duration.value))
  }

  function PostgresAcquireOrRenew(row: Option<Record>, token: Token, duration: real, metadata: Metadata,
                                  now: real): Option<Record>
  {
    var c := Select(row);
    var expired := Expired(c, now);
    if And(Not(expired), Not(Eq(c.holder, token))) == True then row
    else if Not(expired) == True then
      if row.None? then None
      else Some(row.value.(renewedAt := now, duration := duration, metadata := metadata))
    else
      var previous := if c.transitions.Some? then c.transitions.value else 0;
      var transitions := if Or(IsNull(c.holder), Eq(c.holder, token)) == True then previous else previous + 1;
      Some(Record(token, duration, now, now, transitions, metadata))
  }

  const NO_HASH := Hash(None, 0.0, 0.0, 0.0, 0, map[])

  function RedisRelease(stored: Hash, token: Token, now: real): (Hash, bool) {
    if stored.holder.None? then (stored, false)
    else if now < stored.renewedAt + stored.duration && stored.holder.value == token then (NO_HASH, true)
    else (stored, false)
  }

  function RedisGet(stored: Hash, now: real): Option<Record> {
    if stored.holder.None? || !(now < stored.renewedAt + stored.duration) then None else RecordOfHash(stored)
  }

  /** `NOW() < renewed_at + lease_duration`, unknown when a column is NULL. */
  function Unexpired(c: Columns, now: real): Truth {
    if c.renewedAt.None? || c.duration.None? then Unknown else Of(now < c.renewedAt.value + c.duration.value)
  }

  function PostgresRelease(row: Option<Record>, token: Token, now: real): (Option<Record>, bool) {
    var c := Select(row);
    if And(Eq(c.holder, token), Unexpired(c, now)) == True then (None, true) else (row, false)
  }

  function PostgresGet(row: Option<Record>, now: real): Option<Record> {
    if Unexpired(Select(row), now) == True then row else None
  }

  /** So are their releases and reads. */
  lemma ReleasesAgree(stored: Hash, row: Option<Record>, token: Token, now: real)
    ensures var (after, released) := RedisRelease(stored, token, now);
            (RecordOfHash(after), released) == Release(RecordOfHash(stored), token, now)
    ensures PostgresRelease(row, token, now) == Release(row, token, now)
    ensures RedisGet(stored, now) == (if LiveRecord(RecordOfHash(stored), now) then RecordOfHash(stored) else None)
    ensures PostgresGet(row, now) == (if LiveRecord(row, now) then row else None)
  {
  }

  /** Both scripts are the in-memory step, so the tenure theorems are about all three backends. */
  lemma ScriptsAgree(stored: Hash, row: Option<Record>, token: Token, duration: real, metadata: Metadata, now: real)
    ensures RecordOfHash(RedisAcquireOrRenew(stored, token, duration, metadata, now))
            == Some(AcquireOrRenew(RecordOfHash(stored), token, duration, metadata, now, now))
    ensures PostgresAcquireOrRenew(row, token, duration, metadata, now)
            == Some(AcquireOrRenew(row, token, duration, metadata, now, now))
  {
  }
}
