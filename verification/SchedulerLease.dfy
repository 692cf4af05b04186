/** The Redis lease that keeps scheduler ticks of several daemon replicas apart.
    Times are those of the Redis server; an event is the moment a command takes effect there. */
module SchedulerLease {
  import opened Options

  /** The lock key: the token of a lease and when it expires. */
  datatype Key = Key(token: nat, expiry: int)

  datatype Stage = Ticking | Finished | Deleting

  /** A replica that acquired the lock: in the tick body, about to GET, or about to DEL.
      `acquired` is when its SET reached Redis, and `reached` when that or its latest renewal did. */
  datatype Holder = Holder(token: nat, acquired: int, reached: int, stage: Stage)

  /** A replica that is not in `holders` is outside. */
  datatype State = State(now: int, key: Option<Key>, holders: map<nat, Holder>, nextToken: nat)

  datatype Event =
    | Advance(ms: nat)
    | Acquire(r: nat)        // SET key token NX PX ttl
    | Renew(r: nat)          // the renewal script, from a replica whose tick is running
    | LateRenew(token: nat)  // the renewal script, arriving after its timer was cleared
    | Finish(r: nat)
    | Get(r: nat)
    | Del(r: nat)
    | Crash(r: nat)

  predicate KeyLives(s: State) { s.key.Some? && s.now < s.key.value.expiry }

  predicate Holds(s: State, r: nat, stage: Stage) { r in s.holders && s.holders[r].stage == stage }

  /** The renewal script: only the token that is still there is extended. */
  function Renewed(s: State, token: nat, ttl: nat): Option<Key> {
    if KeyLives(s) && s.key.value.token == token then Some(Key(token, s.now + ttl)) else s.key
  }

  function Step(s: State, e: Event, ttl: nat): State {
    match e
    case Advance(ms) => s.(now := s.now + ms)
    case Acquire(r) =>
      if r in s.holders || KeyLives(s) then s
      else s.(key := Some(Key(s.nextToken, s.now + ttl)), nextToken := s.nextToken + 1,
              holders := s.holders[r := Holder(s.nextToken, s.now, s.now, Ticking)])
    case Renew(r) =>
      if !Holds(s, r, Ticking) then s
      else s.(key := Renewed(s, s.holders[r].token, ttl), holders := s.holders[r := s.holders[r].(reached := s.now)])
    case LateRenew(token) => if token < s.nextToken then s.(key := Renewed(s, token, ttl)) else s
    case Finish(r) =>
      if Holds(s, r, Ticking) then s.(holders := s.holders[r := s.holders[r].(stage := Finished)]) else s
    case Get(r) =>
      if !Holds(s, r, Finished) then s
      else if KeyLives(s) && s.key.value.token == s.holders[r].token
      then s.(holders := s.holders[r := s.holders[r].(stage := Deleting)])
      else s.(holders := s.holders - {r})
    case Del(r) => if Holds(s, r, Deleting) then s.(key := None, holders := s.holders - {r}) else s
    case Crash(r) => s.(holders := s.holders - {r})
  }

  function Run(s: State, es: seq<Event>, ttl: nat): State
    decreases |es|
  {
    if es == [] then s else Step(Run(s, es[..|es| - 1], ttl), es[|es| - 1], ttl)
  }

  function Initial(now: int): State { State(now, None, map[], 0) }

  /** Nobody overstays: less than one TTL has passed since each holder's SET or latest renewal reached Redis. */
  predicate Timely(s: State, ttl: nat) { forall r :: r in s.holders ==> s.now < s.holders[r].reached + ttl }

  ghost predicate AlwaysTimely(s: State, es: seq<Event>, ttl: nat) {
    forall k :: 0 <= k <= |es| ==> Timely(Run(s, es[..k], ttl), ttl)
  }

  /** Every holder's own token is in the key, for at least one TTL since it last reached Redis. */
  predicate Inv(s: State, ttl: nat) {
    && (forall r :: r in s.holders ==>
          && s.key.Some? && s.key.value.token == s.holders[r].token
          && s.holders[r].reached <= s.now && s.holders[r].reached + ttl <= s.key.value.expiry)
    && (forall r, q :: r in s.holders && q in s.holders ==> r == q)
    && (s.key.Some? ==> s.key.value.token < s.nextToken)
  }

  /** At most one replica has the tick body, or its release, under way. */
  predicate Exclusive(s: State) { forall r, q :: r in s.holders && q in s.holders ==> r == q }

  lemma StepKeepsInv(s: State, e: Event, ttl: nat)
    requires Inv(s, ttl) && Timely(s, ttl)
    ensures Inv(Step(s, e, ttl), ttl)
  {
    if e.Acquire? {
      assert KeyLives(s) || forall r :: r !in s.holders;
    } else if e.Renew? && Holds(s, e.r, Ticking) {
      assert s.now < s.holders[e.r].reached + ttl <= s.key.value.expiry;
    }
  }

  lemma {:induction false} RunKeepsInv(s: State, es: seq<Event>, ttl: nat)
    requires Inv(s, ttl) && AlwaysTimely(s, es, ttl)
    ensures Inv(Run(s, es, ttl), ttl)
    decreases |es|
  {
    hide Step, Inv, Timely;
    if es != [] {
      var n := |es| - 1;
      assert forall k :: 0 <= k <= n ==> es[..n][..k] == es[..k];
      RunKeepsInv(s, es[..n], ttl);
      StepKeepsInv(Run(s, es[..n], ttl), es[n], ttl);
    }
  }

  /** If nobody overstays, at most one replica is ever inside, in any interleaving of any number of replicas. */
  lemma TicksExclude(now: int, es: seq<Event>, ttl: nat)
    requires AlwaysTimely(Initial(now), es, ttl)
    ensures Exclusive(Run(Initial(now), es, ttl))
  {
    hide Step, Timely;
    RunKeepsInv(Initial(now), es, ttl);
  }

  // ---- Nobody touches another replica's lease ----

  /** What each command may do to a live lease: only its own replica extends or removes it. */
  lemma LeaseChangesAreOwn(s: State, e: Event, ttl: nat)
    requires Inv(s, ttl) && Timely(s, ttl) && KeyLives(s)
    ensures var s' := Step(s, e, ttl);
      s'.key == s.key
      || (e.Renew? && e.r in s.holders && s.holders[e.r].token == s.key.value.token)
      || (e.LateRenew? && e.token == s.key.value.token)
      || (e.Del? && Holds(s, e.r, Deleting) && s.holders[e.r].token == s.key.value.token)
  {
  }

  /** An extension never changes whose lease it is, and never depends on anybody being timely. */
  lemma RenewalKeepsOwner(s: State, e: Event, ttl: nat)
    requires e.Renew? || e.LateRenew?
    ensures var s' := Step(s, e, ttl);
      s'.key.Some? == s.key.Some? && (s.key.Some? ==> s'.key.value.token == s.key.value.token)
    ensures Step(s, e, ttl).key != s.key ==>
      KeyLives(s) && s.key.value.token == if e.Renew? then s.holders[e.r].token else e.token
  {
  }

  // ---- Releasing ----

  lemma RunThree(s: State, e: Event, f: Event, g: Event, ttl: nat)
    ensures Run(s, [e, f, g], ttl) == Step(Step(Step(s, e, ttl), f, ttl), g, ttl)
  {
    hide Step;
    RunTwo(s, e, f, ttl);
    RunExtends(s, [e, f], g, ttl);
    assert [e, f] + [g] == [e, f, g];
  }

  /** A replica that finishes while its lease lives releases it: no key is left, it is outside, and the next one that
      asks enters at once. */
  lemma ReleaseFrees(s: State, r: nat, q: nat, ttl: nat)
    requires Inv(s, ttl) && Holds(s, r, Finished) && KeyLives(s)
    ensures var s' := Run(s, [Get(r), Del(r)], ttl);
      && s'.key.None? && r !in s'.holders && s'.now == s.now
      && Holds(Step(s', Acquire(q), ttl), q, Ticking)
  {
    RunTwo(s, Get(r), Del(r), ttl);
    assert forall p :: p in s.holders ==> p == r;
  }

  /** The same from the end of the tick body on. */
  lemma TickReleases(s: State, r: nat, q: nat, ttl: nat)
    requires Inv(s, ttl) && Holds(s, r, Ticking) && KeyLives(s)
    ensures var s' := Run(s, [Finish(r), Get(r), Del(r)], ttl);
      && s'.key.None? && r !in s'.holders && s'.now == s.now
      && Holds(Step(s', Acquire(q), ttl), q, Ticking)
  {
    RunThree(s, Finish(r), Get(r), Del(r), ttl);
    assert forall p :: p in s.holders ==> p == r;
  }

  /** One whose lease has run out, or has been taken over since, leaves the key alone. */
  lemma LateReleaseKeepsOut(s: State, r: nat, ttl: nat)
    requires Holds(s, r, Finished) && !(KeyLives(s) && s.key.value.token == s.holders[r].token)
    ensures var s' := Run(s, [Get(r), Del(r)], ttl); s' == s.(holders := s.holders - {r})
  {
    RunTwo(s, Get(r), Del(r), ttl);
  }

  /** The lock is given exactly when there is none or it has expired, for a whole TTL. */
  lemma AcquiresExactly(s: State, q: nat, ttl: nat)
    requires q !in s.holders
    ensures q in Step(s, Acquire(q), ttl).holders <==> s.key.None? || s.key.value.expiry <= s.now
    ensures var s' := Step(s, Acquire(q), ttl);
      q in s'.holders ==> s'.key == Some(Key(s.nextToken, s.now + ttl))
  {
  }

  lemma AdvancingKeeps(s: State, ms: nat, q: nat, ttl: nat)
    requires q !in s.holders
    ensures q in Step(Step(s, Advance(ms), ttl), Acquire(q), ttl).holders
      <==> s.key.None? || s.key.value.expiry <= s.now + ms
  {
  }

  /** After a renewal that finds the lease unexpired nobody enters for a whole TTL, and from then on anybody does. */
  lemma RenewalHoldsExactly(s: State, r: nat, ms: nat, q: nat, ttl: nat)
    requires Inv(s, ttl) && Holds(s, r, Ticking) && KeyLives(s) && q != r
    ensures q in Run(s, [Renew(r), Advance(ms), Acquire(q)], ttl).holders <==> ms >= ttl
  {
    RunThree(s, Renew(r), Advance(ms), Acquire(q), ttl);
    assert q !in s.holders;
    AdvancingKeeps(Step(s, Renew(r), ttl), ms, q, ttl);
  }

  /** The lease of a replica that dies keeps the others out exactly until it expires. */
  lemma CrashedLeaseExpires(s: State, r: nat, ms: nat, q: nat, ttl: nat)
    requires Inv(s, ttl) && r in s.holders
    ensures q in Run(s, [Crash(r), Advance(ms), Acquire(q)], ttl).holders <==> s.now + ms >= s.key.value.expiry
  {
    RunThree(s, Crash(r), Advance(ms), Acquire(q), ttl);
    assert q !in Step(s, Crash(r), ttl).holders;
    AdvancingKeeps(Step(s, Crash(r), ttl), ms, q, ttl);
  }

  /** A renewal that arrives after the timer was cleared extends the lease of its own token, if it is unexpired, and
      nothing else; it brings nobody in. */
  lemma LateRenewalExactly(s: State, token: nat, ms: nat, q: nat, ttl: nat)
    requires q !in s.holders && token < s.nextToken
    ensures q in Run(s, [LateRenew(token), Advance(ms), Acquire(q)], ttl).holders
      <==> s.key.None?
           || (if KeyLives(s) && s.key.value.token == token then ms >= ttl else s.key.value.expiry <= s.now + ms)
  {
    RunThree(s, LateRenew(token), Advance(ms), Acquire(q), ttl);
    AdvancingKeeps(Step(s, LateRenew(token), ttl), ms, q, ttl);
  }

  // ---- When somebody overstays ----

  /** While a replica is inside, another can enter exactly when the lease has run out. */
  lemma EntryExactly(s: State, r: nat, q: nat, ttl: nat)
    requires Inv(s, ttl) && r in s.holders && q !in s.holders
    ensures Exclusive(Step(s, Acquire(q), ttl)) <==> s.now < s.key.value.expiry
  {
    var s' := Step(s, Acquire(q), ttl);
    assert r in s'.holders;
    assert s.now >= s.key.value.expiry ==> q in s'.holders;
  }

  lemma RunExtends(s: State, es: seq<Event>, e: Event, ttl: nat)
    ensures Run(s, es + [e], ttl) == Step(Run(s, es, ttl), e, ttl)
  {
    hide Step;
    assert (es + [e])[..|es|] == es;
  }

  lemma RunTwo(s: State, e: Event, f: Event, ttl: nat)
    ensures Run(s, [e, f], ttl) == Step(Step(s, e, ttl), f, ttl)
  {
    hide Step;
    RunExtends(s, [], e, ttl);
    RunExtends(s, [e], f, ttl);
    assert [] + [e] == [e] && [e] + [f] == [e, f];
  }

  /** The release reads and deletes in two commands. Between them another replica can acquire the lock, and the DEL
      then destroys its lease, exactly when the DEL is late: the lease it was meant for has expired. */
  lemma LateDeleteExactly(s: State, r: nat, q: nat, ttl: nat)
    requires Inv(s, ttl) && Holds(s, r, Deleting) && q != r
    ensures var s' := Run(s, [Acquire(q), Del(r)], ttl);
      (q in s'.holders && s'.key.None?) <==> s.now >= s.key.value.expiry
  {
    RunTwo(s, Acquire(q), Del(r), ttl);
    assert q !in s.holders;
    EntryExactly(s, r, q, ttl);
    assert r in Step(s, Acquire(q), ttl).holders;
  }

  /** And then, exactly, a third replica enters beside the second, although both are within their time. */
  lemma LateDeleteEvictsExactly(s: State, r: nat, q: nat, p: nat, ttl: nat)
    requires Inv(s, ttl) && Holds(s, r, Deleting) && q != r && p != r && p != q && ttl > 0
    ensures var s' := Run(s, [Acquire(q), Del(r)] + [Acquire(p)], ttl);
      && Timely(s', ttl) && s'.now == s.now
      && (Exclusive(s') <==> s.now < s.key.value.expiry)
  {
    RunTwo(s, Acquire(q), Del(r), ttl);
    RunExtends(s, [Acquire(q), Del(r)], Acquire(p), ttl);
    assert q !in s.holders && p !in s.holders;
    var s' := Run(s, [Acquire(q), Del(r)] + [Acquire(p)], ttl);
    assert p in s'.holders;
    assert s.now >= s.key.value.expiry ==> q in s'.holders;
  }

  // ---- The renewal period ----

  /** The configured TTL if it is a number of at least 1500, or 8000. */
  function TtlMs(raw: Option<real>): real {
    if raw.Some? && raw.value >= 1500.0 then raw.value else 8000.0
  }

  function RenewMs(ttl: real): real {
    var third := (ttl / 3.0).Floor as real;
    var most := if third <= ttl - 500.0 then third else ttl - 500.0;
    if most >= 500.0 then most else 500.0
  }

  lemma RenewalsAreThreeTimesFaster(raw: Option<real>)
    ensures TtlMs(raw) >= 1500.0 && RenewMs(TtlMs(raw)) >= 500.0
    ensures TtlMs(raw) == (if raw.Some? && raw.value >= 1500.0 then raw.value else 8000.0)
    ensures RenewMs(TtlMs(raw)) == (TtlMs(raw) / 3.0).Floor as real
    ensures var three := 3.0 * RenewMs(TtlMs(raw)); three <= TtlMs(raw) < three + 3.0
  {
  }

  /** When the timer set at `start` fires for the k-th time after the first. */
  function Firing(start: real, period: real, k: nat): real { start + (k + 1) as real * period }

  /** Renewal `k` is sent when the timer fires for the k-th time and reaches Redis within `delay`, or is lost. */
  predicate Scheduled(acquired: real, start: real, ttl: real, delay: real, arrivals: seq<Option<real>>) {
    && acquired <= start <= acquired + delay
    && forall k :: 0 <= k < |arrivals| && arrivals[k].Some? ==>
         Firing(start, RenewMs(ttl), k) <= arrivals[k].value <= Firing(start, RenewMs(ttl), k) + delay
  }

  /** No two renewals in a row are lost. */
  predicate OneLostAtMost(arrivals: seq<Option<real>>) {
    forall k :: 0 <= k < |arrivals| - 1 ==> arrivals[k].Some? || arrivals[k + 1].Some?
  }

  /** When Redis last heard from the holder, after `k` firings of the timer. */
  function LastHeard(acquired: real, arrivals: seq<Option<real>>, k: nat): real
    requires k <= |arrivals|
  {
    if k == 0 then acquired
    else if arrivals[k - 1].Some? then arrivals[k - 1].value
    else LastHeard(acquired, arrivals, k - 1)
  }

  /** With delays under a sixth of the TTL, one lost renewal at a time is harmless: each one that arrives
      finds the lease unexpired. */
  lemma LostRenewalTolerated(raw: Option<real>, acquired: real, start: real, delay: real,
      arrivals: seq<Option<real>>, k: nat)
    requires var ttl := TtlMs(raw); 6.0 * delay < ttl && Scheduled(acquired, start, ttl, delay, arrivals)
    requires OneLostAtMost(arrivals) && k < |arrivals| && arrivals[k].Some?
    ensures LastHeard(acquired, arrivals, k) <= arrivals[k].value < LastHeard(acquired, arrivals, k) + TtlMs(raw)
  {
    var ttl := TtlMs(raw);
    var p := RenewMs(ttl);
    RenewalsAreThreeTimesFaster(raw);
    hide RenewMs, TtlMs;
    FiringAdvances(start, p, k);
    hide Firing;
    if k == 1 {
      assert LastHeard(acquired, arrivals, 0) == acquired;
    } else if k > 1 && arrivals[k - 1].None? {
      assert arrivals[k - 2].Some?;
      assert LastHeard(acquired, arrivals, k - 1) == arrivals[k - 2].value;
    }
  }

  lemma FiringAdvances(start: real, p: real, k: nat)
    ensures Firing(start, p, 0) == start + p && Firing(start, p, 1) == start + p + p
    ensures k > 0 ==> Firing(start, p, k) == Firing(start, p, k - 1) + p
    ensures k > 1 ==> Firing(start, p, k) == Firing(start, p, k - 2) + p + p
  {
    assert k > 0 ==> (k + 1) as real == k as real + 1.0;
    assert k > 1 ==> (k + 1) as real == (k - 1) as real + 1.0 + 1.0;
  }

  // ---- Renewals on schedule keep every holder timely ----

  /** The holder's timer has been set, its renewals are sent on time and no two in a row are lost; those that have
      arrived by now have been heard. `arrivals` says so for every renewal that is due. */
  predicate OnSchedule(h: Holder, now: int, ttl: nat, start: real, delay: real, arrivals: seq<Option<real>>) {
    && Scheduled(h.acquired as real, start, ttl as real, delay, arrivals) && OneLostAtMost(arrivals)
    && now as real < Firing(start, RenewMs(ttl as real), |arrivals|) + delay
    && (forall k :: 0 <= k < |arrivals| && arrivals[k].Some? && arrivals[k].value <= now as real ==>
          arrivals[k].value <= h.reached as real)
  }

  /** Every holder, from its SET to its DEL, is on a schedule of its own. */
  ghost predicate Punctual(s: State, ttl: nat, delay: real) {
    forall r :: r in s.holders ==>
      exists start, arrivals :: OnSchedule(s.holders[r], s.now, ttl, start, delay, arrivals)
  }

  lemma PeriodOf(ttl: nat)
    requires ttl >= 1500
    ensures TtlMs(Some(ttl as real)) == ttl as real
    ensures RenewMs(ttl as real) >= 500.0
    ensures var three := 3.0 * RenewMs(ttl as real); three <= ttl as real < three + 3.0
  {
    RenewalsAreThreeTimesFaster(Some(ttl as real));
  }

  lemma {:induction false} ScheduleIsTimely(h: Holder, now: int, ttl: nat, start: real, delay: real,
      arrivals: seq<Option<real>>)
    requires ttl >= 1500 && 6.0 * delay < ttl as real && h.acquired <= h.reached
    requires OnSchedule(h, now, ttl, start, delay, arrivals)
    ensures now < h.reached + ttl
    decreases |arrivals|
  {
    PeriodOf(ttl);
    var n, p := |arrivals|, RenewMs(ttl as real);
    hide RenewMs;
    FiringAdvances(start, p, n);
    hide Firing;
    if n > 0 && arrivals[n - 1].Some? {
      if arrivals[n - 1].value > now as real {
        ScheduleIsTimely(h, now, ttl, start, delay, arrivals[..n - 1]);
      }
    } else if n > 1 {
      assert arrivals[n - 2].Some?;
      if arrivals[n - 2].value > now as real {
        ScheduleIsTimely(h, now, ttl, start, delay, arrivals[..n - 2]);
      }
    }
  }

  predicate InOrder(s: State) { forall r :: r in s.holders ==> s.holders[r].acquired <= s.holders[r].reached <= s.now }

  lemma {:induction false} RunInOrder(now: int, es: seq<Event>, ttl: nat)
    ensures InOrder(Run(Initial(now), es, ttl))
    decreases |es|
  {
    if es != [] {
      RunInOrder(now, es[..|es| - 1], ttl);
    }
  }

  lemma PunctualIsTimely(s: State, ttl: nat, delay: real)
    requires ttl >= 1500 && 6.0 * delay < ttl as real && InOrder(s) && Punctual(s, ttl, delay)
    ensures Timely(s, ttl)
  {
    hide OnSchedule;
    forall r | r in s.holders
      ensures s.now < s.holders[r].reached + ttl
    {
      var start, arrivals :| OnSchedule(s.holders[r], s.now, ttl, start, delay, arrivals);
      ScheduleIsTimely(s.holders[r], s.now, ttl, start, delay, arrivals);
    }
  }

  /** With every accepted TTL and one-way delays under a sixth of it, ticks exclude one another although renewals are
      lost, no two in a row. */
  lemma LostRenewalsKeepExclusion(now: int, es: seq<Event>, ttl: nat, delay: real)
    requires ttl >= 1500 && 6.0 * delay < ttl as real
    requires forall k :: 0 <= k <= |es| ==> Punctual(Run(Initial(now), es[..k], ttl), ttl, delay)
    ensures Exclusive(Run(Initial(now), es, ttl))
  {
    hide Step, Run, Punctual, Timely, InOrder, Exclusive;
    forall k | 0 <= k <= |es|
      ensures Timely(Run(Initial(now), es[..k], ttl), ttl)
    {
      RunInOrder(now, es[..k], ttl);
      PunctualIsTimely(Run(Initial(now), es[..k], ttl), ttl, delay);
    }
    TicksExclude(now, es, ttl);
  }
}
