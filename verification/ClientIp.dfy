/** The right-to-left walk that resolves the client address behind trusted proxies. */
module ClientIp {
  import opened Options
  import opened Addresses
  import opened ForwardedFor

  type TrustedNetwork = n: Network | n.Valid() witness V4Net(0, 0)

  /** `networks` have been folded; the limits may be any integers. */
  datatype Config = Config(networks: seq<TrustedNetwork>, maxHops: Option<int>, maxEntries: int, maxBytes: int)

  /** How the text of an address is read. */
  type Parser = string -> Option<Address>

  datatype Reason = Resolved | NoForwardedHeader | UntrustedPeer | ChainExhausted
                  | HopLimit | MalformedEntry | HeaderTooLarge | TooManyEntries

  datatype ClientAddress = ClientAddress(ip: Address, port: Option<int>, reason: Reason, hops: nat)

  /** The transport peer as the server reports it. */
  datatype Peer = Peer(host: string, port: Option<int>)

  predicate Trusts(c: Config, a: Address) {
    exists i :: 0 <= i < |c.networks| && Contains(c.networks[i], Canonical(a))
  }

  function Compiled(declared: seq<TrustedNetwork>): seq<TrustedNetwork> {
    seq(|declared|, i requires 0 <= i < |declared| => CanonicalNetwork(declared[i]))
  }

  /** A set of proxies trusts what the networks it was declared with cover, but for what folding hides. */
  lemma TrustsExactly(c: Config, declared: seq<TrustedNetwork>, a: Address)
    requires c.networks == Compiled(declared) && a.Valid()
    ensures Trusts(c, a) <==> exists i :: 0 <= i < |declared| && Covers(declared[i], a) && !Hidden(declared[i], a)
  {
    forall i | 0 <= i < |declared|
      ensures Contains(c.networks[i], Canonical(a)) <==> Covers(declared[i], a) && !Hidden(declared[i], a)
    {
      FoldedMembership(declared[i], a);
    }
  }

  datatype Verdict = Malformed | Hop | Client(ip: Address, port: Option<int>)

  function Judge(c: Config, parse: Parser, entry: string): Verdict {
    var split := SplitHostPort(entry);
    if split.None? then Malformed
    else
      var address := parse(split.value.host);
      if address.None? then Malformed
      else if Trusts(c, Canonical(address.value)) then Hop
      else Client(Canonical(address.value), if split.value.port.Some? then Some(split.value.port.value) else None)
  }

  /** `entries[-maxEntries:]` when there are more than `maxEntries`. */
  function Kept(entries: seq<string>, maxEntries: int): seq<string> {
    var n := |entries|;
    if n <= maxEntries then entries
    else if maxEntries > 0 then entries[n - maxEntries..]
    else if -maxEntries <= n then entries[-maxEntries..]
    else []
  }

  /** A positive cap keeps the last entries, a cap of zero all of them, a negative one drops as many in front. */
  lemma KeptEntries(entries: seq<string>, maxEntries: int)
    ensures var n, kept := |entries|, Kept(entries, maxEntries);
            && |kept| == (if maxEntries == 0 then n
                          else if maxEntries > 0 then (if n < maxEntries then n else maxEntries)
                          else if n < -maxEntries then 0 else n + maxEntries)
            && forall i :: 0 <= i < |kept| ==> kept[i] == entries[n - |kept| + i]
  {
  }

  function Judged(c: Config, parse: Parser, entries: seq<string>): (vs: seq<Verdict>)
    ensures |vs| == |entries|
  {
    seq(|entries|, i requires 0 <= i < |entries| => Judge(c, parse, entries[i]))
  }

  type Limit = Option<int>

  predicate PastLimit(maxHops: Limit, hops: nat) { maxHops.Some? && hops > maxHops.value }

  /** Where the walk stops: the reason, the trusted entries passed, and the client when one is found. */
  datatype Stop = Stop(reason: Reason, hops: nat, client: Option<(Address, Option<int>)>)

  function WalkFrom(maxHops: Limit, vs: seq<Verdict>, exhausted: Reason, hops: nat): Stop {
    if vs == [] then Stop(exhausted, hops, None)
    else
      match vs[|vs| - 1]
      case Malformed => Stop(MalformedEntry, hops, None)
      case Client(ip, port) => Stop(Resolved, hops, Some((ip, port)))
      case Hop =>
        if PastLimit(maxHops, hops + 1) then Stop(HopLimit, hops + 1, None)
        else WalkFrom(maxHops, vs[..|vs| - 1], exhausted, hops + 1)
  }

  function Answer(peer: Address, port: Option<int>, stop: Stop): ClientAddress {
    if stop.client.Some? then ClientAddress(stop.client.value.0, stop.client.value.1, stop.reason, stop.hops)
    else ClientAddress(peer, port, stop.reason, stop.hops)
  }

  function ExhaustedBy(c: Config, entries: seq<string>): Reason {
    if |entries| > c.maxEntries then TooManyEntries else ChainExhausted
  }

  function ReadEntries(c: Config, parse: Parser, entries: seq<string>): Stop {
    if entries == [] then Stop(NoForwardedHeader, 0, None)
    else WalkFrom(c.maxHops, Judged(c, parse, Kept(entries, c.maxEntries)), ExhaustedBy(c, entries), 0)
  }

  function ReadHeader(c: Config, parse: Parser, values: seq<string>): Stop {
    if TooLarge(values, c.maxBytes) then Stop(HeaderTooLarge, 0, None) else ReadEntries(c, parse, Entries(Join(values)))
  }

  function Resolution(c: Config, parse: Parser, client: Option<Peer>, headers: seq<Header>): Option<ClientAddress> {
    if client.None? then None
    else
      var address := parse(client.value.host);
      if address.None? then None
      else
        var peer := Canonical(address.value);
        Some(Answer(peer, client.value.port,
                    if Trusts(c, peer) then ReadHeader(c, parse, Values(headers)) else Stop(UntrustedPeer, 0, None)))
  }

  // ---- The operations ----

  const MAX_WARNED_PEERS := 8

  predicate Reporting(warned: Option<set<Address>>) { warned.Some? ==> |warned.value| < MAX_WARNED_PEERS }

  /** How many untrusted peers may still be reported. */
  function Budget(warned: Option<set<Address>>): int {
    if warned.None? then 0 else 8 - |warned.value|
  }

  class TrustedProxies {
    const config: Config
    var warnedPeers: Option<set<Address>>

    constructor (config: Config)
      ensures this.config == config && Reporting(warnedPeers)
      ensures warnedPeers == if config.networks == [] then None else Some({})
    {
      this.config := config;
      warnedPeers := if config.networks == [] then None else Some({});
    }

    method Contains(a: Address) returns (r: bool)
      ensures r == Trusts(config, a)
    {
      var i := 0;
      while i < |config.networks|
        invariant i <= |config.networks|
        invariant forall k :: 0 <= k < i ==> !Addresses.Contains(config.networks[k], Canonical(a))
      {
        if Addresses.Contains(config.networks[i], Canonical(a)) {
          return true;
        }
        i := i + 1;
      }
      return false;
    }

    /** A peer is reported when it forwards something and has not been reported before. */
    method WarnUntrustedPeer(headers: seq<Header>, peer: Address) returns (reported: bool)
      requires Reporting(warnedPeers)
      modifies this
      ensures reported <==> old(warnedPeers).Some? && peer !in old(warnedPeers).value && Forwards(headers)
      ensures Budget(warnedPeers) == Budget(old(warnedPeers)) - (if reported then 1 else 0) && Reporting(warnedPeers)
      ensures warnedPeers.Some? ==>
          old(warnedPeers).Some? && warnedPeers.value == old(warnedPeers).value + (if reported then {peer} else {})
    {
      if warnedPeers.None? || peer in warnedPeers.value {
        return false;
      }
      var i := 0;
      while i < |headers| && !(Lower(headers[i].0) == FORWARDED_FOR && Strip(headers[i].1) != "")
        invariant i <= |headers|
        invariant forall k :: 0 <= k < i ==> !ForwardsAt(headers, k)
      {
        assert !ForwardsAt(headers, i);
        i := i + 1;
      }
      if i == |headers| {
        return false;
      }
      assert ForwardsAt(headers, i);
      var warned := warnedPeers.value + {peer};
      warnedPeers := if |warned| >= MAX_WARNED_PEERS then None else Some(warned);
      return true;
    }

    method ResolveClientAddress(parse: Parser, client: Option<Peer>, headers: seq<Header>)
      returns (r: Option<ClientAddress>, reported: bool)
      requires Reporting(warnedPeers)
      modifies this
      ensures r == Resolution(config, parse, client, headers)
      ensures Budget(warnedPeers) == Budget(old(warnedPeers)) - (if reported then 1 else 0) && Reporting(warnedPeers)
      ensures reported ==> r.Some? && r.value.reason == UntrustedPeer && old(warnedPeers).Some?
                           && r.value.ip !in old(warnedPeers).value
    {
      if client.None? {
        return None, false;
      }
      var address := parse(client.value.host);
      if address.None? {
        return None, false;
      }
      var peer, port := Canonical(address.value), client.value.port;
      var trusted := Contains(peer);
      if !trusted {
        reported := WarnUntrustedPeer(headers, peer);
        return Some(ClientAddress(peer, port, UntrustedPeer, 0)), reported;
      }
      var raw := CollectHeader(headers, config.maxBytes);
      if raw.None? {
        return Some(ClientAddress(peer, port, HeaderTooLarge, 0)), false;
      }
      var entries := Entries(raw.value);
      if entries == [] {
        return Some(ClientAddress(peer, port, NoForwardedHeader, 0)), false;
      }
      var exhausted := ChainExhausted;
      if |entries| > config.maxEntries {
        exhausted := TooManyEntries;
      }
      var answer := WalkEntries(parse, Kept(entries, config.maxEntries), exhausted, peer, port);
      return Some(answer), false;
    }

    method JudgeEntry(parse: Parser, entry: string) returns (v: Verdict)
      ensures v == Judge(config, parse, entry)
    {
      var split := SplitHostPort(entry);
      if split.None? {
        return Malformed;
      }
      var parsed := parse(split.value.host);
      if parsed.None? {
        return Malformed;
      }
      var address := Canonical(parsed.value);
      var trusted := Contains(address);
      if trusted {
        return Hop;
      }
      return Client(address, if split.value.port.Some? then Some(split.value.port.value) else None);
    }

    method WalkEntries(parse: Parser, entries: seq<string>, exhausted: Reason, peer: Address, port: Option<int>)
      returns (r: ClientAddress)
      ensures r == Answer(peer, port, WalkFrom(config.maxHops, Judged(config, parse, entries), exhausted, 0))
    {
      ghost var vs := Judged(config, parse, entries);
      var hops := 0;
      var i := |entries|;
      assert vs[..i] == vs;
      while i > 0
        invariant i + hops == |entries|
        invariant WalkFrom(config.maxHops, vs, exhausted, 0) == WalkFrom(config.maxHops, vs[..i], exhausted, hops)
      {
        assert vs[..i][..i - 1] == vs[..i - 1] && vs[i - 1] == Judge(config, parse, entries[i - 1]);
        var v := JudgeEntry(parse, entries[i - 1]);
        if v.Malformed? {
          return ClientAddress(peer, port, MalformedEntry, hops);
        }
        if v.Client? {
          return ClientAddress(v.ip, v.port, Resolved, hops);
        }
        hops := hops + 1;
        if config.maxHops.Some? && hops > config.maxHops.value {
          return ClientAddress(peer, port, HopLimit, hops);
        }
        i := i - 1;
      }
      return ClientAddress(peer, port, exhausted, hops);
    }
  }

  predicate ForwardsAt(headers: seq<Header>, k: nat)
    requires k < |headers|
  {
    Lower(headers[k].0) == FORWARDED_FOR && Strip(headers[k].1) != ""
  }

  predicate Forwards(headers: seq<Header>) { exists k :: 0 <= k < |headers| && ForwardsAt(headers, k) }

  // ---- What the walk finds ----

  /** The last `tail` entries are trusted proxies, and the one before them, if any, is not. */
  ghost predicate TrustedTail(vs: seq<Verdict>, tail: nat) {
    && tail <= |vs|
    && (forall i :: |vs| - tail <= i < |vs| ==> vs[i] == Hop)
    && (tail < |vs| ==> vs[|vs| - 1 - tail] != Hop)
  }

  predicate WithinHops(maxHops: Limit, tail: nat) { tail == 0 || !PastLimit(maxHops, tail) }

  function LimitHops(maxHops: Limit): nat { if maxHops.None? || maxHops.value < 0 then 1 else maxHops.value + 1 }

  function VerdictStop(v: Verdict, hops: nat): Stop {
    if v.Client? then Stop(Resolved, hops, Some((v.ip, v.port))) else Stop(MalformedEntry, hops, None)
  }

  lemma {:induction false} TailExists(vs: seq<Verdict>) returns (tail: nat)
    ensures TrustedTail(vs, tail)
  {
    if vs == [] || vs[|vs| - 1] != Hop {
      tail := 0;
    } else {
      var shorter := TailExists(vs[..|vs| - 1]);
      tail := shorter + 1;
    }
  }

  /** The length of the trusted tail decides the whole outcome. */
  lemma {:induction false} WalkStops(maxHops: Limit, vs: seq<Verdict>, exhausted: Reason, hops: nat, tail: nat)
    requires TrustedTail(vs, tail) && WithinHops(maxHops, hops)
    ensures WalkFrom(maxHops, vs, exhausted, hops)
            == if !WithinHops(maxHops, hops + tail) then Stop(HopLimit, LimitHops(maxHops), None)
               else if tail == |vs| then Stop(exhausted, hops + tail, None)
               else VerdictStop(vs[|vs| - 1 - tail], hops + tail)
  {
    if tail > 0 && !PastLimit(maxHops, hops + 1) {
      WalkStops(maxHops, vs[..|vs| - 1], exhausted, hops + 1, tail - 1);
    }
  }

  predicate RunsOut(r: Reason) { r == ChainExhausted || r == TooManyEntries }

  /** Entry `i` is the client: everything to its right is a trusted proxy, and not too many of them. */
  ghost predicate RightmostClient(maxHops: Limit, vs: seq<Verdict>, i: int) {
    && 0 <= i < |vs| && vs[i].Client?
    && (forall k :: i < k < |vs| ==> vs[k] == Hop)
    && WithinHops(maxHops, |vs| - 1 - i)
  }

  /** A walk resolves to a client exactly when it is the rightmost untrusted entry, and counts the entries it passed. */
  lemma ResolvedExactly(maxHops: Limit, vs: seq<Verdict>, exhausted: Reason, stop: Stop)
    requires RunsOut(exhausted)
    ensures stop == WalkFrom(maxHops, vs, exhausted, 0) && stop.reason == Resolved
            <==> exists i :: RightmostClient(maxHops, vs, i) && stop == VerdictStop(vs[i], |vs| - 1 - i)
  {
    var tail := TailExists(vs);
    WalkStops(maxHops, vs, exhausted, 0, tail);
    var client := |vs| - 1 - tail;
    if stop == WalkFrom(maxHops, vs, exhausted, 0) && stop.reason == Resolved {
      assert RightmostClient(maxHops, vs, client);
    }
    forall i | RightmostClient(maxHops, vs, i) ensures i == client {
    }
  }

  /** Entry `i` of the chain that is read, and the trusted entries after it. */
  ghost predicate Vouched(vs: seq<Verdict>, i: int, ip: Address, port: Option<int>, hops: nat) {
    && 0 <= i < |vs| && hops == |vs| - 1 - i
    && vs[i] == Client(ip, port)
    && forall k :: i < k < |vs| ==> vs[k] == Hop
  }

  lemma ChainVouches(c: Config, parse: Parser, entries: seq<string>) returns (i: int)
    requires ReadEntries(c, parse, entries).reason == Resolved
    ensures var stop := ReadEntries(c, parse, entries);
            stop.client.Some?
            && Vouched(Judged(c, parse, Kept(entries, c.maxEntries)), i, stop.client.value.0, stop.client.value.1, stop.hops)
  {
    var vs, stop := Judged(c, parse, Kept(entries, c.maxEntries)), ReadEntries(c, parse, entries);
    ResolvedExactly(c.maxHops, vs, ExhaustedBy(c, entries), stop);
    i :| RightmostClient(c.maxHops, vs, i) && stop == VerdictStop(vs[i], |vs| - 1 - i);
  }

  lemma ClientIsUntrusted(c: Config, parse: Parser, entry: string)
    ensures var v := Judge(c, parse, entry); v.Client? ==> !Trusts(c, v.ip)
  {
  }

  /** A resolved address comes from a trusted peer, is itself untrusted, and only trusted proxies follow it. */
  lemma ResolvedIsVouched(c: Config, parse: Parser, client: Option<Peer>, headers: seq<Header>) returns (i: int)
    requires var r := Resolution(c, parse, client, headers); r.Some? && r.value.reason == Resolved
    ensures var entries, r := Kept(AllEntries(Values(headers)), c.maxEntries), Resolution(c, parse, client, headers).value;
            Vouched(Judged(c, parse, entries), i, r.ip, r.port, r.hops) && !Trusts(c, r.ip)
    ensures var peer := parse(client.value.host); peer.Some? && Trusts(c, Canonical(peer.value))
  {
    var all := AllEntries(Values(headers));
    EntriesOfJoin(Values(headers));
    assert ReadHeader(c, parse, Values(headers)) == ReadEntries(c, parse, all);
    i := ChainVouches(c, parse, all);
    ClientIsUntrusted(c, parse, Kept(all, c.maxEntries)[i]);
  }

  lemma {:induction false} OnlyResolvedHasClient(maxHops: Limit, vs: seq<Verdict>, exhausted: Reason, hops: nat)
    requires RunsOut(exhausted)
    ensures var stop := WalkFrom(maxHops, vs, exhausted, hops); stop.client.Some? <==> stop.reason == Resolved
  {
    if vs != [] && vs[|vs| - 1] == Hop {
      OnlyResolvedHasClient(maxHops, vs[..|vs| - 1], exhausted, hops + 1);
    }
  }

  /** Every other answer is the peer's own address and port; an untrusted peer gets no other, whatever it sends. */
  lemma OtherwiseThePeer(c: Config, parse: Parser, peer: Peer, headers: seq<Header>)
    requires parse(peer.host).Some?
    ensures var r, own := Resolution(c, parse, Some(peer), headers), Canonical(parse(peer.host).value);
            && r.Some?
            && (r.value.reason != Resolved ==> r.value.ip == own && r.value.port == peer.port)
            && (r.value.reason == UntrustedPeer <==> !Trusts(c, own))
  {
    var entries := Entries(Join(Values(headers)));
    var vs := Judged(c, parse, Kept(entries, c.maxEntries));
    OnlyResolvedHasClient(c.maxHops, vs, ExhaustedBy(c, entries), 0);
    WalkReasons(c.maxHops, vs, ExhaustedBy(c, entries), 0);
  }

  lemma {:induction false} WalkReasons(maxHops: Limit, vs: seq<Verdict>, exhausted: Reason, hops: nat)
    ensures var r := WalkFrom(maxHops, vs, exhausted, hops).reason; r == exhausted || Decided(r)
  {
    if vs != [] && vs[|vs| - 1] == Hop {
      WalkReasons(maxHops, vs[..|vs| - 1], exhausted, hops + 1);
    }
  }

  /** The header is small enough to be read. */
  predicate SmallEnough(c: Config, values: seq<string>) { values == [] || |Join(values)| < c.maxBytes }

  lemma FitsExactly(c: Config, values: seq<string>)
    ensures SmallEnough(c, values) <==> !TooLarge(values, c.maxBytes)
  {
    if values != [] {
      JoinSize(values);
    }
  }

  predicate AllHops(vs: seq<Verdict>, from: nat) { forall i :: from <= i < |vs| ==> vs[i] == Hop }

  predicate RunsDry(maxHops: Limit, vs: seq<Verdict>) { AllHops(vs, 0) && WithinHops(maxHops, |vs|) }

  predicate TooManyHops(maxHops: Limit, vs: seq<Verdict>) {
    maxHops.Some? && LimitHops(maxHops) <= |vs| && AllHops(vs, |vs| - LimitHops(maxHops))
  }

  /** Entry `i` is malformed, and only proxies within the hop limit come after it. */
  predicate BadEntry(maxHops: Limit, vs: seq<Verdict>, i: nat) {
    i < |vs| && vs[i] == Malformed && AllHops(vs, i + 1) && WithinHops(maxHops, |vs| - 1 - i)
  }

  ghost predicate MeetsBadEntry(maxHops: Limit, vs: seq<Verdict>) { exists i :: BadEntry(maxHops, vs, i) }

  /** Where a chain leads that gives no client. */
  lemma ChainReasons(maxHops: Limit, vs: seq<Verdict>, exhausted: Reason)
    requires RunsOut(exhausted)
    ensures var r := WalkFrom(maxHops, vs, exhausted, 0).reason;
            && (r == exhausted <==> RunsDry(maxHops, vs))
            && (r == HopLimit <==> TooManyHops(maxHops, vs))
            && (r == MalformedEntry <==> MeetsBadEntry(maxHops, vs))
            && (r == exhausted || Decided(r))
  {
    var tail := TailExists(vs);
    WalkStops(maxHops, vs, exhausted, 0, tail);
    var bad := |vs| - 1 - tail;
    if tail < |vs| && WithinHops(maxHops, tail) && vs[bad] == Malformed {
      assert BadEntry(maxHops, vs, bad);
    }
    forall i | BadEntry(maxHops, vs, i) ensures i == bad {
    }
  }

  /** Why a chain of `n` entries, of which `vs` are read, gives no client. */
  ghost predicate Because(c: Config, n: nat, vs: seq<Verdict>, r: Reason) {
    && (r == ChainExhausted <==> n <= c.maxEntries && RunsDry(c.maxHops, vs))
    && (r == TooManyEntries <==> n > c.maxEntries && RunsDry(c.maxHops, vs))
    && (r == HopLimit <==> TooManyHops(c.maxHops, vs))
    && (r == MalformedEntry <==> MeetsBadEntry(c.maxHops, vs))
    && r != NoForwardedHeader && r != HeaderTooLarge
  }

  lemma EntriesReasons(c: Config, parse: Parser, entries: seq<string>)
    requires entries != []
    ensures Because(c, |entries|, Judged(c, parse, Kept(entries, c.maxEntries)), ReadEntries(c, parse, entries).reason)
  {
    ChainReasons(c.maxHops, Judged(c, parse, Kept(entries, c.maxEntries)), ExhaustedBy(c, entries));
  }

  lemma HeaderReasons(c: Config, parse: Parser, values: seq<string>)
    ensures var all, r := AllEntries(values), ReadHeader(c, parse, values).reason;
            if !SmallEnough(c, values) then r == HeaderTooLarge
            else if all == [] then r == NoForwardedHeader
            else Because(c, |all|, Judged(c, parse, Kept(all, c.maxEntries)), r)
  {
    FitsExactly(c, values);
    EntriesOfJoin(values);
    if AllEntries(values) != [] {
      EntriesReasons(c, parse, AllEntries(values));
    }
  }

  /** Why a trusted peer's header gives no client, for each reason exactly when. */
  lemma ReasonsExactly(c: Config, parse: Parser, peer: Peer, headers: seq<Header>)
    requires parse(peer.host).Some? && Trusts(c, Canonical(parse(peer.host).value))
    ensures var values, answer := Values(headers), Resolution(c, parse, Some(peer), headers);
            && answer.Some?
            && var all, r := AllEntries(values), answer.value.reason;
               if !SmallEnough(c, values) then r == HeaderTooLarge
               else if all == [] then r == NoForwardedHeader
               else Because(c, |all|, Judged(c, parse, Kept(all, c.maxEntries)), r)
  {
    HeaderReasons(c, parse, Values(headers));
  }

  // ---- What trusted proxies write ----

  /** The entry is written as a proxy writes it, and its host is read as an address. */
  predicate Readable(parse: Parser, e: HostPort) {
    HostText(e.host) && (e.port.Some? ==> e.port.value <= MAX_PORT) && parse(e.host).Some?
  }

  function ReadAddress(parse: Parser, e: HostPort): Address
    requires Readable(parse, e)
  {
    Canonical(parse(e.host).value)
  }

  predicate IsProxy(c: Config, parse: Parser, e: HostPort) { Readable(parse, e) && Trusts(c, ReadAddress(parse, e)) }

  predicate IsCaller(c: Config, parse: Parser, e: HostPort) { Readable(parse, e) && !Trusts(c, ReadAddress(parse, e)) }

  function Spelled(chain: seq<HostPort>): seq<string> {
    seq(|chain|, i requires 0 <= i < |chain| => ShowEntry(chain[i]))
  }

  lemma JudgesWritten(c: Config, parse: Parser, e: HostPort)
    requires Readable(parse, e)
    ensures Judge(c, parse, ShowEntry(e))
            == if Trusts(c, ReadAddress(parse, e)) then Hop else Client(ReadAddress(parse, e), e.port)
  {
    SplitShow(e);
  }

  lemma JudgesChain(
    c: Config, parse: Parser, vs: seq<Verdict>, kept: seq<string>, more: seq<string>, e: HostPort, proxies: seq<HostPort>)
    requires kept == more + Spelled([e] + proxies) && vs == Judged(c, parse, kept)
    requires IsCaller(c, parse, e) && forall d | d in proxies :: IsProxy(c, parse, d)
    ensures TrustedTail(vs, |proxies|) && |proxies| < |vs|
    ensures vs[|vs| - 1 - |proxies|] == Client(ReadAddress(parse, e), e.port)
  {
    var n, tail := |kept|, |proxies|;
    assert kept[n - 1 - tail] == ShowEntry(e);
    JudgesWritten(c, parse, e);
    forall i | n - tail <= i < n ensures vs[i] == Hop {
      var d := proxies[i - (n - tail)];
      assert d in proxies && kept[i] == ShowEntry(d);
      JudgesWritten(c, parse, d);
    }
  }

  lemma WrittenChain(
    c: Config, parse: Parser, entries: seq<string>, pre: seq<string>, e: HostPort, proxies: seq<HostPort>)
    requires entries == pre + Spelled([e] + proxies)
    requires IsCaller(c, parse, e) && forall d | d in proxies :: IsProxy(c, parse, d)
    requires |proxies| < c.maxEntries && WithinHops(c.maxHops, |proxies|)
    ensures ReadEntries(c, parse, entries) == Stop(Resolved, |proxies|, Some((ReadAddress(parse, e), e.port)))
  {
    var kept := Kept(entries, c.maxEntries);
    var written := Spelled([e] + proxies);
    var more := KeptIsSuffix(pre, written, c.maxEntries);
    assert Kept(written, c.maxEntries) == written;
    var vs := Judged(c, parse, kept);
    JudgesChain(c, parse, vs, kept, more, e, proxies);
    WalkStops(c.maxHops, vs, ExhaustedBy(c, entries), 0, |proxies|);
  }

  /** A chain as it stands in a header line: each entry as a proxy writes it, with any white space around. */
  ghost predicate Writes(pieces: seq<Padded>, chain: seq<HostPort>) {
    && |pieces| == |chain|
    && forall i :: 0 <= i < |pieces| ==> pieces[i].Valid() && pieces[i].text == ShowEntry(chain[i])
  }

  lemma WrittenTexts(pieces: seq<Padded>, chain: seq<HostPort>)
    requires Writes(pieces, chain) && forall e | e in chain :: e.host != ""
    ensures Entries(Join(Shown(pieces))) == Spelled(chain)
  {
    EntriesAreTheTexts(pieces);
    forall p | p in pieces ensures p.Valid() && p.text != "" {
      var i :| 0 <= i < |pieces| && pieces[i] == p;
      assert chain[i] in chain;
    }
    FullTexts(pieces);
  }

  /**
   The client a trusted proxy wrote down is resolved, with its port and the number of proxies after
   it, whatever lines came before and however the entries are spaced.
   */
  lemma HonestChainResolves(
    c: Config, parse: Parser, peer: Peer, before: seq<Header>, name: string, pieces: seq<Padded>,
    e: HostPort, proxies: seq<HostPort>)
    requires parse(peer.host).Some? && Trusts(c, Canonical(parse(peer.host).value))
    requires IsCaller(c, parse, e) && forall d | d in proxies :: IsProxy(c, parse, d)
    requires Lower(name) == FORWARDED_FOR && Writes(pieces, [e] + proxies)
    requires |proxies| < c.maxEntries && WithinHops(c.maxHops, |proxies|)
    requires Total(Values(before)) + |Join(Shown(pieces))| < c.maxBytes
    ensures Resolution(c, parse, Some(peer), before + [(name, Join(Shown(pieces)))])
            == Some(ClientAddress(ReadAddress(parse, e), e.port, Resolved, |proxies|))
  {
    var line := Join(Shown(pieces));
    var values := Values(before + [(name, line)]);
    assert Total(values) <= c.maxBytes && Entries(Join(values)) == AllEntries(Values(before)) + Spelled([e] + proxies) by {
      LastLine(before, name, line);
      ChainHosts(c, parse, e, proxies);
      WrittenTexts(pieces, [e] + proxies);
    }
    WrittenHeader(c, parse, values, AllEntries(Values(before)), e, proxies);
    TrustedPeerReads(c, parse, peer, before + [(name, line)]);
  }

  lemma ChainHosts(c: Config, parse: Parser, e: HostPort, proxies: seq<HostPort>)
    requires IsCaller(c, parse, e) && forall d | d in proxies :: IsProxy(c, parse, d)
    ensures forall d | d in [e] + proxies :: d.host != ""
  {
    forall d | d in [e] + proxies ensures d.host != "" {
      assert d == e || IsProxy(c, parse, d);
    }
  }

  lemma TrustedPeerReads(c: Config, parse: Parser, peer: Peer, headers: seq<Header>)
    requires parse(peer.host).Some? && Trusts(c, Canonical(parse(peer.host).value))
    ensures Resolution(c, parse, Some(peer), headers)
            == Some(Answer(Canonical(parse(peer.host).value), peer.port, ReadHeader(c, parse, Values(headers))))
  {
  }

  lemma WrittenHeader(c: Config, parse: Parser, values: seq<string>, pre: seq<string>, e: HostPort, proxies: seq<HostPort>)
    requires Total(values) <= c.maxBytes && Entries(Join(values)) == pre + Spelled([e] + proxies)
    requires IsCaller(c, parse, e) && forall d | d in proxies :: IsProxy(c, parse, d)
    requires |proxies| < c.maxEntries && WithinHops(c.maxHops, |proxies|)
    ensures ReadHeader(c, parse, values) == Stop(Resolved, |proxies|, Some((ReadAddress(parse, e), e.port)))
  {
    WrittenChain(c, parse, Entries(Join(values)), pre, e, proxies);
  }

  lemma LastLine(before: seq<Header>, name: string, line: string)
    requires Lower(name) == FORWARDED_FOR
    ensures var values := Values(before + [(name, line)]);
            && Total(values) == Total(Values(before)) + |line| + 1
            && Entries(Join(values)) == AllEntries(Values(before)) + Entries(line)
  {
    OneLine(name, line);
    ValuesConcat(before, [(name, line)]);
    TotalGrows(Values(before), [line]);
    AllEntriesConcat(Values(before), [line]);
    EntriesOfJoin(Values(before + [(name, line)]));
  }

  // ---- What a caller may write in front ----

  /** The reasons that an entry of the chain decides. */
  predicate Decided(r: Reason) { r == Resolved || r == MalformedEntry || r == HopLimit }

  lemma {:induction false} PrependedEntries(
    maxHops: Limit, pre: seq<Verdict>, vs: seq<Verdict>, exhausted: Reason, exhausted': Reason, hops: nat)
    requires RunsOut(exhausted) && Decided(WalkFrom(maxHops, vs, exhausted, hops).reason)
    ensures WalkFrom(maxHops, pre + vs, exhausted', hops) == WalkFrom(maxHops, vs, exhausted, hops)
    decreases |vs|
  {
    var n, all := |vs|, pre + vs;
    assert all[|all| - 1] == vs[n - 1] && all[..|all| - 1] == pre + vs[..n - 1];
    if vs[n - 1] == Hop && !PastLimit(maxHops, hops + 1) {
      PrependedEntries(maxHops, pre, vs[..n - 1], exhausted, exhausted', hops + 1);
    }
  }

  /** Whatever the limit, the entries kept of a longer chain end with those kept of the shorter one. */
  lemma KeptIsSuffix(pre: seq<string>, entries: seq<string>, maxEntries: int) returns (more: seq<string>)
    ensures Kept(pre + entries, maxEntries) == more + Kept(entries, maxEntries)
  {
    var long, short := Kept(pre + entries, maxEntries), Kept(entries, maxEntries);
    more := long[..|long| - |short|];
    assert long[|long| - |short|..] == short;
  }

  lemma JudgedConcat(c: Config, parse: Parser, a: seq<string>, b: seq<string>)
    ensures Judged(c, parse, a + b) == Judged(c, parse, a) + Judged(c, parse, b)
  {
  }

  lemma PrependedChain(c: Config, parse: Parser, pre: seq<string>, entries: seq<string>)
    requires Decided(ReadEntries(c, parse, entries).reason)
    ensures ReadEntries(c, parse, pre + entries) == ReadEntries(c, parse, entries)
  {
    var kept := Kept(entries, c.maxEntries);
    var more := KeptIsSuffix(pre, entries, c.maxEntries);
    JudgedConcat(c, parse, more, kept);
    PrependedEntries(c.maxHops, Judged(c, parse, more), Judged(c, parse, kept),
                     ExhaustedBy(c, entries), ExhaustedBy(c, pre + entries), 0);
  }

  lemma PrependedLines(c: Config, parse: Parser, extra: seq<string>, values: seq<string>)
    requires Decided(ReadHeader(c, parse, values).reason)
    ensures ReadHeader(c, parse, extra + values) == ReadHeader(c, parse, values)
            <==> extra == [] || Total(extra + values) <= c.maxBytes
  {
    EntriesOfJoin(values);
    EntriesOfJoin(extra + values);
    AllEntriesConcat(extra, values);
    if extra == [] {
      assert extra + values == values;
    } else {
      PrependedChain(c, parse, AllEntries(extra), AllEntries(values));
    }
  }

  /**
   Header lines put in front of the request's own never change an address, a malformed chain or a
   hop limit: exactly as long as the header still fits, and also past the cap on entries.
   */
  lemma PrependingChangesNothing(
    c: Config, parse: Parser, client: Option<Peer>, extra: seq<Header>, headers: seq<Header>)
    requires var r := Resolution(c, parse, client, headers); r.Some? && Decided(r.value.reason)
    ensures Resolution(c, parse, client, extra + headers) == Resolution(c, parse, client, headers)
            <==> Values(extra) == [] || Total(Values(extra + headers)) <= c.maxBytes
  {
    ValuesConcat(extra, headers);
    PrependedLines(c, parse, Values(extra), Values(headers));
  }

  // ---- One line or several ----

  lemma OneLine(name: string, x: string)
    requires Lower(name) == FORWARDED_FOR
    ensures Values([(name, x)]) == [x] && Total([x]) == |x| + 1 && AllEntries([x]) == Entries(x)
  {
    OneValue(name, x);
    assert [x][..0] == [];
  }

  lemma CutLine(name: string, name': string, x: string, y: string)
    requires Lower(name) == Lower(name') == FORWARDED_FOR
    ensures Values([(name, x + "," + y)]) == [x + "," + y] && Values([(name, x), (name', y)]) == [x, y]
    ensures Total([x + "," + y]) == Total([x, y]) && AllEntries([x + "," + y]) == AllEntries([x, y])
  {
    OneLine(name, x + "," + y);
    OneLine(name, x);
    OneLine(name', y);
    assert [(name, x), (name', y)] == [(name, x)] + [(name', y)] && [x, y] == [x] + [y];
    ValuesConcat([(name, x)], [(name', y)]);
    TotalGrows([x], [y]);
    AllEntriesConcat([x], [y]);
    EntriesAtComma(x, y);
  }

  lemma SameReading(c: Config, parse: Parser, values: seq<string>, values': seq<string>)
    requires (values == [] <==> values' == []) && Total(values) == Total(values') && AllEntries(values) == AllEntries(values')
    ensures ReadHeader(c, parse, values) == ReadHeader(c, parse, values')
  {
    EntriesOfJoin(values);
    EntriesOfJoin(values');
  }

  /** Cutting a line at a comma into two lines changes no result, the size limit included (section 5.3 of RFC 9110). */
  lemma CuttingChangesNothing(
    c: Config, parse: Parser, client: Option<Peer>, before: seq<Header>, after: seq<Header>,
    name: string, name': string, x: string, y: string)
    requires Lower(name) == Lower(name') == FORWARDED_FOR
    ensures Resolution(c, parse, client, before + [(name, x + "," + y)] + after)
            == Resolution(c, parse, client, before + [(name, x), (name', y)] + after)
  {
    var one: seq<Header>, two: seq<Header> := [(name, x + "," + y)], [(name, x), (name', y)];
    CutLine(name, name', x, y);
    Around(before, one, after);
    Around(before, two, after);
    SameReading(c, parse, Values(before + one + after), Values(before + two + after));
  }

  lemma Around(before: seq<Header>, middle: seq<Header>, after: seq<Header>)
    ensures var values := Values(before + middle + after);
            && values == Values(before) + Values(middle) + Values(after)
            && Total(values) == Total(Values(before)) + Total(Values(middle)) + Total(Values(after))
            && AllEntries(values) == AllEntries(Values(before)) + AllEntries(Values(middle)) + AllEntries(Values(after))
  {
    ValuesConcat(before + middle, after);
    ValuesConcat(before, middle);
    TotalGrows(Values(before) + Values(middle), Values(after));
    TotalGrows(Values(before), Values(middle));
    AllEntriesConcat(Values(before) + Values(middle), Values(after));
    AllEntriesConcat(Values(before), Values(middle));
  }

  /** Text put in front of the first line's own value, with a comma, is no different from lines put in front. */
  lemma PrefixChangesNothing(
    c: Config, parse: Parser, client: Option<Peer>, before: seq<Header>, after: seq<Header>, name: string, x: string, y: string)
    requires Lower(name) == FORWARDED_FOR && Values(before) == []
    requires var r := Resolution(c, parse, client, [(name, y)] + after); r.Some? && Decided(r.value.reason)
    ensures Resolution(c, parse, client, before + [(name, x + "," + y)] + after)
            == Resolution(c, parse, client, [(name, y)] + after)
            <==> Total(Values(before + [(name, x + "," + y)] + after)) <= c.maxBytes
  {
    CuttingChangesNothing(c, parse, client, before, after, name, name, x, y);
    var extra := before + [(name, x)];
    assert before + [(name, x), (name, y)] + after == extra + ([(name, y)] + after);
    PrependingChangesNothing(c, parse, client, extra, [(name, y)] + after);
    SameTotal(before, after, name, x, y);
    OneLine(name, x);
    ValuesConcat(before, [(name, x)]);
  }

  lemma SameTotal(before: seq<Header>, after: seq<Header>, name: string, x: string, y: string)
    requires Lower(name) == FORWARDED_FOR
    ensures Total(Values(before + [(name, x + "," + y)] + after))
            == Total(Values(before + [(name, x), (name, y)] + after))
  {
    CutLine(name, name, x, y);
    Around(before, [(name, x + "," + y)], after);
    Around(before, [(name, x), (name, y)], after);
  }
}
