/** The login throttle: ten attempts a minute for each address. The server keeps a trimmed
    list of times per address and drops idle addresses when there are many of them; it
    is compared here with the full history of attempts. */
module Login {
  type Addr = string
  type Time = int   // nanoseconds

  const MINUTE: Time := 60 * 1_000_000_000
  const MAX_ATTEMPTS := 10
  const MANY_ADDRESSES := 4096

  /** One login request; `admitted` if it was not answered 429. */
  datatype Attempt = Attempt(ip: Addr, at: Time, admitted: bool)

  // ---- the rule, on the full history ----

  /** The times of the admitted attempts of ip that are less than a minute old. */
  function Recent(h: seq<Attempt>, ip: Addr, now: Time): seq<Time> {
    if h == [] then []
    else
      var last := h[|h| - 1];
      Recent(h[..|h| - 1], ip, now)
      + (if last.ip == ip && last.admitted && now - last.at < MINUTE then [last.at] else [])
  }

  predicate Allowed(h: seq<Attempt>, ip: Addr, now: Time) { |Recent(h, ip, now)| < MAX_ATTEMPTS }

  /** The history with one more request, decided by the rule. */
  function Decide(h: seq<Attempt>, ip: Addr, now: Time): seq<Attempt> {
    h + [Attempt(ip, now, Allowed(h, ip, now))]
  }

  // ---- what the server keeps ----

  type Table = map<Addr, seq<Time>>

  function Listed(t: Table, ip: Addr): seq<Time> { if ip in t then t[ip] else [] }

  function Young(ts: seq<Time>, now: Time): seq<Time> {
    if ts == [] then []
    else Young(ts[..|ts| - 1], now) + (if now - ts[|ts| - 1] < MINUTE then [ts[|ts| - 1]] else [])
  }

  predicate Idle(ts: seq<Time>, now: Time) { ts == [] || now - ts[|ts| - 1] > MINUTE }

  function Pruned(t: Table, now: Time): Table { map k | k in t && !Idle(t[k], now) :: t[k] }

  /** What a request makes of the table. */
  function Updated(t: Table, ip: Addr, now: Time, prunes: bool): Table {
    var u := if prunes then Pruned(t, now) else t;
    if |Young(Listed(u, ip), now)| >= MAX_ATTEMPTS then u
    else u[ip := Young(Listed(u, ip), now) + [now]]
  }

  predicate Admits(t: Table, ip: Addr, now: Time, prunes: bool) {
    |Young(Listed(if prunes then Pruned(t, now) else t, ip), now)| < MAX_ATTEMPTS
  }

  // ---- lists against history ----

  ghost predicate Sorted(ts: seq<Time>) { forall i, j :: 0 <= i < j < |ts| ==> ts[i] <= ts[j] }

  /** Times never go back. */
  ghost predicate Ordered(h: seq<Attempt>, now: Time) {
    && (forall i, j :: 0 <= i < j < |h| ==> h[i].at <= h[j].at)
    && (forall i :: 0 <= i < |h| ==> h[i].at <= now)
  }

  /** The list of ip, cut down to the last minute, is the history of ip in that minute. */
  ghost predicate Faithful(t: Table, h: seq<Attempt>, now: Time, ip: Addr) {
    && Young(Listed(t, ip), now) == Recent(h, ip, now)
    && Sorted(Listed(t, ip))
    && (forall i :: 0 <= i < |Listed(t, ip)| ==> Listed(t, ip)[i] <= now)
  }

  ghost predicate Inv(t: Table, h: seq<Attempt>, now: Time) {
    Ordered(h, now) && forall ip :: Faithful(t, h, now, ip)
  }

  lemma {:induction false} YoungIsSorted(ts: seq<Time>, now: Time)
    requires Sorted(ts)
    ensures Sorted(Young(ts, now))
    ensures forall x :: x in Young(ts, now) ==> x in ts
    decreases |ts|
  {
    if ts != [] {
      var n := |ts| - 1;
      var y := Young(ts[..n], now);
      YoungIsSorted(ts[..n], now);
      forall k | 0 <= k < |y| ensures y[k] <= ts[n] {
        assert y[k] in y && y[k] in ts[..n];
        var i :| 0 <= i < n && ts[..n][i] == y[k];
        assert ts[i] <= ts[n];
      }
    }
  }

  /** Cutting down twice is cutting down to the later minute. */
  lemma {:induction false} YoungLater(ts: seq<Time>, now: Time, later: Time)
    requires now <= later
    ensures Young(Young(ts, now), later) == Young(ts, later)
    decreases |ts|
  {
    if ts != [] {
      var n := |ts| - 1;
      var y := Young(ts[..n], now);
      YoungLater(ts[..n], now, later);
      if now - ts[n] < MINUTE { YoungOneMore(y, ts[n], later); } else { assert Young(ts, now) == y; }
    }
  }

  lemma {:induction false} RecentLater(h: seq<Attempt>, ip: Addr, now: Time, later: Time)
    requires now <= later
    ensures Young(Recent(h, ip, now), later) == Recent(h, ip, later)
    decreases |h|
  {
    if h != [] {
      var last := h[|h| - 1];
      var y := Recent(h[..|h| - 1], ip, now);
      RecentLater(h[..|h| - 1], ip, now, later);
      if last.ip == ip && last.admitted && now - last.at < MINUTE {
        YoungOneMore(y, last.at, later);
      } else {
        assert Recent(h, ip, now) == y;
      }
    }
  }

  lemma YoungOneMore(ts: seq<Time>, x: Time, now: Time)
    ensures Young(ts + [x], now) == Young(ts, now) + (if now - x < MINUTE then [x] else [])
  {
    assert (ts + [x])[..|ts|] == ts;
  }

  lemma YoungPrefix(ts: seq<Time>, i: nat, now: Time)
    requires i < |ts|
    ensures Young(ts[..i + 1], now) == Young(ts[..i], now) + (if now - ts[i] < MINUTE then [ts[i]] else [])
  {
    assert ts[..i + 1] == ts[..i] + [ts[i]];
    YoungOneMore(ts[..i], ts[i], now);
  }

  lemma RecentOneMore(h: seq<Attempt>, a: Attempt, ip: Addr, now: Time)
    ensures Recent(h + [a], ip, now) ==
      Recent(h, ip, now) + (if a.ip == ip && a.admitted && now - a.at < MINUTE then [a.at] else [])
  {
    assert (h + [a])[..|h|] == h;
  }

  /** If even the last entry of a sorted list is old, nothing of it is young. */
  lemma {:induction false} IdleHasNoYoung(ts: seq<Time>, now: Time)
    requires Sorted(ts) && Idle(ts, now)
    ensures Young(ts, now) == []
    decreases |ts|
  {
    if ts != [] {
      IdleHasNoYoung(ts[..|ts| - 1], now);
    }
  }

  lemma TimePasses(t: Table, h: seq<Attempt>, now: Time, later: Time)
    requires Inv(t, h, now) && now <= later
    ensures Inv(t, h, later)
  {
    forall ip ensures Faithful(t, h, later, ip) {
      assert Faithful(t, h, now, ip);
      YoungLater(Listed(t, ip), now, later);
      RecentLater(h, ip, now, later);
    }
  }

  /** Pruning drops only lists that hold nothing of the last minute. */
  lemma PruningIsHarmless(t: Table, h: seq<Attempt>, now: Time)
    requires Inv(t, h, now)
    ensures Inv(Pruned(t, now), h, now)
  {
    forall ip ensures Faithful(Pruned(t, now), h, now, ip) {
      assert Faithful(t, h, now, ip);
      if ip in t && Idle(t[ip], now) { IdleHasNoYoung(t[ip], now); }
    }
  }

  /** The address of the request. */
  lemma RequesterFaithful(u: Table, h: seq<Attempt>, ip: Addr, now: Time)
    requires Faithful(u, h, now, ip) && Allowed(h, ip, now)
    ensures Faithful(u[ip := Young(Listed(u, ip), now) + [now]], h + [Attempt(ip, now, true)], now, ip)
  {
    var y := Young(Listed(u, ip), now);
    RecentOneMore(h, Attempt(ip, now, true), ip, now);
    YoungLater(Listed(u, ip), now, now);
    YoungOneMore(y, now, now);
    YoungIsOrdered(Listed(u, ip), now);
    assert Listed(u[ip := y + [now]], ip) == y + [now];
  }

  lemma YoungIsOrdered(ts: seq<Time>, now: Time)
    requires Sorted(ts) && forall i :: 0 <= i < |ts| ==> ts[i] <= now
    ensures Sorted(Young(ts, now) + [now])
    ensures forall i :: 0 <= i < |Young(ts, now)| ==> Young(ts, now)[i] <= now
  {
    var y := Young(ts, now);
    YoungIsSorted(ts, now);
    forall i | 0 <= i < |y| ensures y[i] <= now { assert y[i] in y && y[i] in ts; }
  }

  /** The other addresses, and a request that is refused. */
  lemma OthersFaithful(u: Table, v: Table, h: seq<Attempt>, a: Attempt, now: Time, k: Addr)
    requires Faithful(u, h, now, k) && (a.ip != k || !a.admitted) && Listed(v, k) == Listed(u, k)
    ensures Faithful(v, h + [a], now, k)
  {
    RecentOneMore(h, a, k, now);
  }

  lemma RequestKeeps(t: Table, h: seq<Attempt>, ip: Addr, now: Time, prunes: bool)
    requires Inv(t, h, now)
    ensures Admits(t, ip, now, prunes) <==> Allowed(h, ip, now)
    ensures Inv(Updated(t, ip, now, prunes), Decide(h, ip, now), now)
  {
    var u := if prunes then Pruned(t, now) else t;
    if prunes { PruningIsHarmless(t, h, now); }
    assert Faithful(u, h, now, ip);
    var v, g := Updated(t, ip, now, prunes), Decide(h, ip, now);
    forall k ensures Faithful(v, g, now, k) {
      assert Faithful(u, h, now, k);
      if k == ip && Allowed(h, ip, now) {
        RequesterFaithful(u, h, ip, now);
      } else {
        OthersFaithful(u, v, h, Attempt(ip, now, Allowed(h, ip, now)), now, k);
      }
    }
  }

  // ---- every run ----

  datatype Request = Request(ip: Addr, at: Time)

  function Log(h: seq<Attempt>, rs: seq<Request>): seq<Attempt> {
    if rs == [] then h else
      var before := Log(h, rs[..|rs| - 1]);
      Decide(before, rs[|rs| - 1].ip, rs[|rs| - 1].at)
  }

  /** The server's table after a run; `prunes` says at which requests it prunes. */
  function Run(rs: seq<Request>, prunes: nat -> bool): Table {
    if rs == [] then map[] else
      var n := |rs| - 1;
      Updated(Run(rs[..n], prunes), rs[n].ip, rs[n].at, prunes(n))
  }

  ghost predicate Chronological(rs: seq<Request>) { forall i, j :: 0 <= i < j < |rs| ==> rs[i].at <= rs[j].at }

  lemma {:induction false} RunKeeps(rs: seq<Request>, prunes: nat -> bool, now: Time)
    requires Chronological(rs) && (rs != [] ==> rs[|rs| - 1].at <= now)
    ensures Inv(Run(rs, prunes), Log([], rs), now) && |Log([], rs)| == |rs|
    decreases |rs|
  {
    if rs == [] {
      forall ip ensures Faithful(map[], [], now, ip) { }
    } else {
      var n := |rs| - 1;
      var r := rs[n];
      RunKeeps(rs[..n], prunes, r.at);
      RequestKeeps(Run(rs[..n], prunes), Log([], rs[..n]), r.ip, r.at, prunes(n));
      TimePasses(Run(rs, prunes), Log([], rs), r.at, now);
    }
  }

  /** Whenever the server prunes, in every run: it admits a request if and only if the full
      history of its address has fewer than ten admitted attempts in the last minute, and
      its list, cut down to the minute, is that history in order. */
  lemma EveryRunFollowsTheRule(rs: seq<Request>, prunes: nat -> bool, ip: Addr, now: Time)
    requires Chronological(rs) && (rs != [] ==> rs[|rs| - 1].at <= now)
    ensures Admits(Run(rs, prunes), ip, now, prunes(|rs|)) <==> Allowed(Log([], rs), ip, now)
    ensures Young(Listed(Run(rs, prunes), ip), now) == Recent(Log([], rs), ip, now)
  {
    RunKeeps(rs, prunes, now);
    RequestKeeps(Run(rs, prunes), Log([], rs), ip, now, prunes(|rs|));
    assert Faithful(Run(rs, prunes), Log([], rs), now, ip);
  }

  /** Pruning never changes a decision. */
  lemma PruningNeverDecides(rs: seq<Request>, a: nat -> bool, b: nat -> bool, ip: Addr, now: Time)
    requires Chronological(rs) && (rs != [] ==> rs[|rs| - 1].at <= now)
    ensures Admits(Run(rs, a), ip, now, a(|rs|)) <==> Admits(Run(rs, b), ip, now, b(|rs|))
  {
    EveryRunFollowsTheRule(rs, a, ip, now);
    EveryRunFollowsTheRule(rs, b, ip, now);
  }

  // ---- the rule in numbers ----

  /** An address is dropped if it has no times or its last one is more than sixty seconds old. */
  lemma PrunedMeans(t: Table, now: Time, k: Addr)
    ensures k in Pruned(t, now) <==> k in t && t[k] != [] && now - t[k][|t[k]| - 1] <= 60_000_000_000
    ensures k in Pruned(t, now) ==> Pruned(t, now)[k] == t[k]
  {
  }

  /** The attempts of ip that were let through in the sixty seconds before `now`. */
  ghost function LetThrough(h: seq<Attempt>, ip: Addr, now: Time): set<nat> {
    set i: nat | i < |h| && h[i].ip == ip && h[i].admitted && now - h[i].at < 60_000_000_000
  }

  lemma {:induction false} RecentCounts(h: seq<Attempt>, ip: Addr, now: Time)
    ensures |Recent(h, ip, now)| == |LetThrough(h, ip, now)|
    decreases |h|
  {
    if h == [] {
      assert LetThrough(h, ip, now) == {};
    } else {
      RecentCounts(h[..|h| - 1], ip, now);
      LetThroughGrows(h[..|h| - 1], h[|h| - 1], ip, now);
      assert h == h[..|h| - 1] + [h[|h| - 1]];
    }
  }

  lemma LetThroughGrows(h: seq<Attempt>, a: Attempt, ip: Addr, now: Time)
    ensures var counts := a.ip == ip && a.admitted && now - a.at < 60_000_000_000;
      |LetThrough(h + [a], ip, now)| == |LetThrough(h, ip, now)| + (if counts then 1 else 0)
  {
    var counts := a.ip == ip && a.admitted && now - a.at < 60_000_000_000;
    assert LetThrough(h + [a], ip, now) == LetThrough(h, ip, now) + (if counts then {|h|} else {});
  }

  /** The history of a run: every request, and whether it was let through. */
  lemma {:induction false} LogMeans(rs: seq<Request>, i: nat)
    requires i < |rs|
    ensures |Log([], rs)| == |rs| && Log([], rs)[..i] == Log([], rs[..i])
    ensures Log([], rs)[i] == Attempt(rs[i].ip, rs[i].at, Allowed(Log([], rs[..i]), rs[i].ip, rs[i].at))
    decreases |rs|
  {
    var n := |rs| - 1;
    LogLength(rs);
    LogLength(rs[..n]);
    if i < n {
      LogMeans(rs[..n], i);
      assert rs[..n][..i] == rs[..i];
      assert Log([], rs)[..i] == Log([], rs)[..n][..i];
    }
  }

  lemma {:induction false} LogLength(rs: seq<Request>)
    ensures |Log([], rs)| == |rs|
    decreases |rs|
  {
    if rs != [] { LogLength(rs[..|rs| - 1]); }
  }

  /** However the server prunes, each request of a run is let through if and only if fewer than ten
      of the requests before it, from the same address and less than sixty seconds ago, were. */
  lemma EveryDecision(rs: seq<Request>, prunes: nat -> bool, i: nat)
    requires Chronological(rs) && i < |rs|
    ensures |Log([], rs)| == |rs|
    ensures var h, r := Log([], rs), rs[i];
      && h[i].ip == r.ip && h[i].at == r.at
      && (h[i].admitted <==> |LetThrough(h[..i], r.ip, r.at)| < 10)
      && (Admits(Run(rs[..i], prunes), r.ip, r.at, prunes(i)) <==> h[i].admitted)
  {
    LogMeans(rs, i);
    RecentCounts(Log([], rs[..i]), rs[i].ip, rs[i].at);
    EveryRunFollowsTheRule(rs[..i], prunes, rs[i].ip, rs[i].at);
  }

  // ---- the limit at every instant ----

  /** Admitted attempts of ip in the minute that ends at an instant, which need not be the
      time of any request. */
  function InMinute(h: seq<Attempt>, ip: Addr, end: Time): nat {
    if h == [] then 0
    else
      var last := h[|h| - 1];
      InMinute(h[..|h| - 1], ip, end)
      + (if last.ip == ip && last.admitted && last.at <= end && end - last.at < 60_000_000_000 then 1 else 0)
  }

  lemma {:induction false} MinuteIsRecent(h: seq<Attempt>, ip: Addr, now: Time, end: Time)
    requires Ordered(h, now) && now <= end
    ensures InMinute(h, ip, end) <= |Recent(h, ip, now)|
    decreases |h|
  {
    if h != [] { MinuteIsRecent(h[..|h| - 1], ip, now, end); }
  }

  /** At most ten attempts of an address are admitted in any minute whatsoever. */
  lemma {:induction false} AtMostTenInAnyMinute(rs: seq<Request>, ip: Addr, end: Time)
    requires Chronological(rs)
    ensures InMinute(Log([], rs), ip, end) <= 10
    decreases |rs|
  {
    if rs != [] {
      var n := |rs| - 1;
      var r, h := rs[n], Log([], rs[..n]);
      AtMostTenInAnyMinute(rs[..n], ip, end);
      assert Log([], rs)[..|h|] == h;
      if r.ip == ip && r.at <= end {
        RunKeeps(rs[..n], k => false, r.at);
        MinuteIsRecent(h, ip, r.at, end);
      }
    }
  }

  // ---- the handler ----

  class Throttle {
    var attempts: Table
    var last: Time                  // time of the previous request
    ghost var history: seq<Attempt>

    ghost predicate Valid() reads this { Inv(attempts, history, last) }

    constructor (start: Time)
      ensures Valid() && attempts == map[] && history == [] && last == start
    {
      attempts, last, history := map[], start, [];
      new;
      forall ip ensures Faithful(attempts, history, last, ip) { }
    }

    method Prune(now: Time)
      modifies this`attempts
      ensures attempts == Pruned(old(attempts), now)
      ensures forall k :: k in attempts <==>
        && k in old(attempts) && old(attempts)[k] != []
        && now - old(attempts)[k][|old(attempts)[k]| - 1] <= 60_000_000_000
      ensures forall k :: k in attempts ==> attempts[k] == old(attempts)[k]
    {
      var rest := attempts;
      while rest.Keys != {}
        invariant rest.Keys <= old(attempts).Keys
        invariant forall k :: k in rest ==> rest[k] == old(attempts)[k]
        invariant forall k :: k in attempts <==> k in old(attempts) && (k in rest || !Idle(old(attempts)[k], now))
        invariant forall k :: k in attempts ==> attempts[k] == old(attempts)[k]
        decreases |rest|
      {
        var k :| k in rest.Keys;
        var ts := rest[k];
        if |ts| == 0 || now - ts[|ts| - 1] > MINUTE {
          attempts := attempts - {k};
        }
        rest := rest - {k};
      }
      assert attempts == Pruned(old(attempts), now);
      forall k { PrunedMeans(old(attempts), now, k); }
    }

    method Trim(ts: seq<Time>, now: Time) returns (recent: seq<Time>)
      ensures recent == Young(ts, now)
    {
      recent := [];
      var i := 0;
      assert ts[..0] == [];
      while i < |ts|
        invariant 0 <= i <= |ts| && recent == Young(ts[..i], now)
      {
        YoungPrefix(ts, i, now);
        if now - ts[i] < MINUTE {
          recent := recent + [ts[i]];
        }
        i := i + 1;
      }
      assert ts[..i] == ts;
    }

    /** A login request: the answer is 429 if and only if the rule forbids it. */
    method Admit(ip: Addr, now: Time) returns (admitted: bool)
      requires Valid() && last <= now
      modifies this
      ensures Valid() && last == now
      ensures admitted <==> Allowed(old(history), ip, now)
      ensures admitted <==> |LetThrough(old(history), ip, now)| < 10
      ensures history == Decide(old(history), ip, now) == old(history) + [Attempt(ip, now, admitted)]
      ensures |old(attempts)| <= 4096 ==> forall k :: k != ip ==>
        (k in attempts <==> k in old(attempts)) && (k in attempts ==> attempts[k] == old(attempts)[k])
      ensures |old(attempts)| > 4096 ==> forall k :: k != ip ==>
        (k in attempts <==> k in Pruned(old(attempts), now)) && (k in attempts ==> attempts[k] == old(attempts)[k])
      ensures attempts == Updated(old(attempts), ip, now, |old(attempts)| > MANY_ADDRESSES)
    {
      TimePasses(attempts, history, last, now);
      RequestKeeps(attempts, history, ip, now, |attempts| > MANY_ADDRESSES);
      RecentCounts(history, ip, now);
      last, history := now, Decide(history, ip, now);
      if |attempts| > MANY_ADDRESSES {
        Prune(now);
      }
      var ts := Listed(attempts, ip);
      var recent := Trim(ts, now);
      if |recent| >= MAX_ATTEMPTS {
        return false;
      }
      attempts := attempts[ip := recent + [now]];
      admitted := true;
    }
  }
}
