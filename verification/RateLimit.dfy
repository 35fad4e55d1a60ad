/**
 The abuse rate limiter of server-game/src/gateway/rate-limit.ts: fixed windows with violation streaks,
 cooldowns, and a sweep that throws away dead entries.
 */
module RateLimit {
  import opened Wrappers

  datatype Scope = Connection | Ip | User

  datatype Subject = Subject(connectionId: nat, ip: nat, userId: Option<nat>)

  datatype Key = Key(rule: string, scope: Scope, id: nat)

  datatype Decision = Decision(allowed: bool, persistent: bool, abusive: bool)

  datatype Bucket = Bucket(
    window: int, expiresAt: int, count: nat,
    violated: bool, violationStreak: nat,
    abusive: bool, abusiveStreak: nat)

  datatype State = State(buckets: map<Key, Bucket>, cooldowns: map<Key, int>, nextSweepAt: int)

  const SWEEP_INTERVAL_MS := 5_000

  const EMPTY := State(map[], map[], 0)

  function SubjectKeys(rule: string, subject: Subject, scopes: set<Scope>): (keys: seq<Key>)
    ensures forall i, j :: 0 <= i < j < |keys| ==> keys[i] != keys[j]
    ensures forall k :: k in keys ==> k.rule == rule
  {
    (if Connection in scopes then [Key(rule, Connection, subject.connectionId)] else [])
    + (if Ip in scopes then [Key(rule, Ip, subject.ip)] else [])
    + (if User in scopes && subject.userId.Some? then [Key(rule, User, subject.userId.value)] else [])
  }

  function Swept(st: State, now: int): State {
    if now < st.nextSweepAt then st
    else
      State(map k | k in st.buckets && st.buckets[k].expiresAt > now :: st.buckets[k],
            map k | k in st.cooldowns && st.cooldowns[k] > now :: st.cooldowns[k],
            now + SWEEP_INTERVAL_MS)
  }

  /** The limits of one call. */
  datatype Limits = Limits(limit: int, windowMs: int, multiplier: int, runLength: int)

  function Window(now: int, windowMs: int): int
    requires windowMs > 0
  {
    now / windowMs
  }

  /** The bucket to count in: the current window's, or a new one that inherits the streaks of the window before. */
  function Opened(bucket: Option<Bucket>, window: int, windowMs: int): Bucket {
    if bucket.Some? && bucket.value.window == window then bucket.value
    else
      var follows := bucket.Some? && bucket.value.window == window - 1;
      Bucket(window, (window + 2) * windowMs, 0,
             false, if follows && bucket.value.violated then bucket.value.violationStreak else 0,
             false, if follows && bucket.value.abusive then bucket.value.abusiveStreak else 0)
  }

  function Counted(b: Bucket, l: Limits): Bucket {
    var count := b.count + 1;
    b.(count := count,
       violated := b.violated || count > l.limit,
       violationStreak := if count > l.limit && !b.violated then b.violationStreak + 1 else b.violationStreak,
       abusive := b.abusive || count > l.limit * l.multiplier,
       abusiveStreak := if count > l.limit * l.multiplier && !b.abusive then b.abusiveStreak + 1 else b.abusiveStreak)
  }

  /** What one key says about a call, from its bucket after counting. */
  function Verdict(b: Bucket, l: Limits): Decision {
    Decision(b.count <= l.limit,
             b.count > l.limit && b.violationStreak >= 3,
             b.count > l.limit * l.multiplier && b.abusiveStreak >= l.runLength)
  }

  function Joined(a: Decision, b: Decision): Decision {
    Decision(a.allowed && b.allowed, a.persistent || b.persistent, a.abusive || b.abusive)
  }

  function Find(buckets: map<Key, Bucket>, key: Key): Option<Bucket> {
    if key in buckets then Some(buckets[key]) else None
  }

  function Hit(buckets: map<Key, Bucket>, key: Key, window: int, l: Limits): Bucket {
    Counted(Opened(Find(buckets, key), window, l.windowMs), l)
  }

  function HitAll(buckets: map<Key, Bucket>, keys: seq<Key>, window: int, l: Limits): (map<Key, Bucket>, Decision)
    decreases |keys|
  {
    if keys == [] then (buckets, Decision(true, false, false))
    else
      var (before, decision) := HitAll(buckets, keys[..|keys| - 1], window, l);
      var key := keys[|keys| - 1];
      var b := Hit(before, key, window, l);
      (before[key := b], Joined(decision, Verdict(b, l)))
  }

  predicate Cool(cooldowns: map<Key, int>, keys: seq<Key>, now: int) {
    forall k :: k in keys ==> (if k in cooldowns then cooldowns[k] else 0) <= now
  }

  function Chilled(cooldowns: map<Key, int>, keys: seq<Key>, until: int): map<Key, int>
    decreases |keys|
  {
    if keys == [] then cooldowns else Chilled(cooldowns, keys[..|keys| - 1], until)[keys[|keys| - 1] := until]
  }

  datatype Call =
    | Check(at: int, rule: string, subject: Subject, scopes: set<Scope>, limits: Limits)
    | Cooldown(at: int, rule: string, subject: Subject, scopes: set<Scope>, cooldownMs: int)

  predicate WellTyped(c: Call) {
    c.Check? ==> c.limits.windowMs > 0
  }

  predicate Callable(calls: seq<Call>) {
    forall c :: c in calls ==> WellTyped(c)
  }

  function Keys(c: Call): seq<Key> {
    SubjectKeys(c.rule, c.subject, c.scopes)
  }

  /** One call without any sweeping. */
  function Answered(st: State, c: Call): (State, Decision)
    requires WellTyped(c)
  {
    match c
    case Check(at, _, _, _, limits) =>
      var (buckets, decision) := HitAll(st.buckets, Keys(c), Window(at, limits.windowMs), limits);
      (st.(buckets := buckets), decision)
    case Cooldown(at, _, _, _, cooldownMs) =>
      if Cool(st.cooldowns, Keys(c), at) then
        (st.(cooldowns := Chilled(st.cooldowns, Keys(c), at + cooldownMs)), Decision(true, false, false))
      else (st, Decision(false, false, false))
  }

  lemma AnsweredCheck(st: State, c: Call)
    requires WellTyped(c) && c.Check?
    ensures
      var (buckets, decision) := HitAll(st.buckets, Keys(c), Window(c.at, c.limits.windowMs), c.limits);
      Answered(st, c) == (State(buckets, st.cooldowns, st.nextSweepAt), decision)
  {
  }

  class AbuseRateLimiter {
    var buckets: map<Key, Bucket>
    var cooldowns: map<Key, int>
    var nextSweepAt: int

    constructor ()
      ensures Model() == EMPTY
    {
      buckets, cooldowns, nextSweepAt := map[], map[], 0;
    }

    function Model(): State
      reads this
    {
      State(buckets, cooldowns, nextSweepAt)
    }

    method Sweep(now: int)
      modifies this
      ensures Model() == Swept(old(Model()), now)
    {
      if now < nextSweepAt {
        return;
      }
      nextSweepAt := now + SWEEP_INTERVAL_MS;
      var todo := buckets.Keys;
      ghost var before := buckets;
      while todo != {}
        invariant todo <= buckets.Keys <= before.Keys && cooldowns == old(cooldowns)
            && nextSweepAt == now + SWEEP_INTERVAL_MS
        invariant forall k :: k in buckets ==> buckets[k] == before[k] && (k in todo || buckets[k].expiresAt > now)
        invariant forall k :: k in before && before[k].expiresAt > now ==> k in buckets
        decreases todo
      {
        var key :| key in todo;
        todo := todo - {key};
        if buckets[key].expiresAt <= now {
          buckets := buckets - {key};
        }
      }
      todo := cooldowns.Keys;
      ghost var cold := cooldowns;
      ghost var kept := buckets;
      while todo != {}
        invariant todo <= cooldowns.Keys <= cold.Keys && buckets == kept && nextSweepAt == now + SWEEP_INTERVAL_MS
        invariant forall k :: k in cooldowns ==> cooldowns[k] == cold[k] && (k in todo || cooldowns[k] > now)
        invariant forall k :: k in cold && cold[k] > now ==> k in cooldowns
        decreases todo
      {
        var key :| key in todo;
        todo := todo - {key};
        if cooldowns[key] <= now {
          cooldowns := cooldowns - {key};
        }
      }
      assert buckets == map k | k in before && before[k].expiresAt > now :: before[k];
      assert cooldowns == map k | k in cold && cold[k] > now :: cold[k];
    }

    method Check(now: int, rule: string, subject: Subject, limits: Limits, scopes: set<Scope>)
        returns (decision: Decision)
      requires limits.windowMs > 0
      modifies this
      ensures (Model(), decision) == Answered(Swept(old(Model()), now), Call.Check(now, rule, subject, scopes, limits))
    {
      Sweep(now);
      decision := CheckSwept(now, rule, subject, limits, scopes);
    }

    /** `check` after its sweep. */
    method CheckSwept(now: int, rule: string, subject: Subject, limits: Limits, scopes: set<Scope>)
      returns (decision: Decision)
      requires limits.windowMs > 0
      modifies this`buckets
      ensures (Model(), decision) == Answered(old(Model()), Call.Check(now, rule, subject, scopes, limits))
    {
      var keys := SubjectKeys(rule, subject, scopes);
      AnsweredCheck(Model(), Call.Check(now, rule, subject, scopes, limits));
      decision := CountAll(keys, now / limits.windowMs, limits);
    }

    /** The loop of `check`. */
    method CountAll(keys: seq<Key>, window: int, limits: Limits) returns (decision: Decision)
      modifies this`buckets
      ensures (buckets, decision) == HitAll(old(buckets), keys, window, limits)
    {
      decision := Decision(true, false, false);
      var i := 0;
      while i < |keys|
        invariant i <= |keys|
        invariant (buckets, decision) == HitAll(old(buckets), keys[..i], window, limits)
      {
        assert keys[..i + 1][..i] == keys[..i];
        var verdict := CountCall(keys[i], window, limits);
        decision := Joined(decision, verdict);
        i := i + 1;
      }
      assert keys[..i] == keys;
    }

    /** The loop body of `check`: one key's bucket. */
    method CountCall(key: Key, window: int, limits: Limits) returns (verdict: Decision)
      modifies this`buckets
      ensures
        var b := Hit(old(buckets), key, window, limits);
        buckets == old(buckets)[key := b] && verdict == Verdict(b, limits)
    {
      verdict := Decision(true, false, false);
      var bucket := Opened(Find(buckets, key), window, limits.windowMs);
      bucket := bucket.(count := bucket.count + 1);
      if bucket.count > limits.limit {
        verdict := verdict.(allowed := false);
        if !bucket.violated {
          bucket := bucket.(violated := true, violationStreak := bucket.violationStreak + 1);
        }
        verdict := verdict.(persistent := bucket.violationStreak >= 3);
      }
      if bucket.count > limits.limit * limits.multiplier {
        if !bucket.abusive {
          bucket := bucket.(abusive := true, abusiveStreak := bucket.abusiveStreak + 1);
        }
        verdict := verdict.(abusive := bucket.abusiveStreak >= limits.runLength);
      }
      buckets := buckets[key := bucket];
    }

    method Cooldown(now: int, rule: string, subject: Subject, cooldownMs: int, scopes: set<Scope>)
      returns (decision: Decision)
      modifies this
      ensures (Model(), decision)
          == Answered(Swept(old(Model()), now), Call.Cooldown(now, rule, subject, scopes, cooldownMs))
    {
      Sweep(now);
      var keys := SubjectKeys(rule, subject, scopes);
      var allowed := IsCool(keys, now);
      if allowed {
        Chill(keys, now + cooldownMs);
      }
      decision := Decision(allowed, false, false);
    }

    method IsCool(keys: seq<Key>, now: int) returns (allowed: bool)
      ensures allowed <==> Cool(cooldowns, keys, now)
    {
      allowed := true;
      var i := 0;
      while i < |keys|
        invariant i <= |keys|
        invariant allowed <==> Cool(cooldowns, keys[..i], now)
      {
        var permittedAt := if keys[i] in cooldowns then cooldowns[keys[i]] else 0;
        if permittedAt > now {
          allowed := false;
        }
        assert keys[..i + 1] == keys[..i] + [keys[i]];
        i := i + 1;
      }
      assert keys[..i] == keys;
    }

    method Chill(keys: seq<Key>, until: int)
      modifies this`cooldowns
      ensures cooldowns == Chilled(old(cooldowns), keys, until)
    {
      var i := 0;
      while i < |keys|
        invariant i <= |keys|
        invariant cooldowns == Chilled(old(cooldowns), keys[..i], until)
      {
        assert keys[..i + 1][..i] == keys[..i];
        cooldowns := cooldowns[keys[i] := until];
        i := i + 1;
      }
      assert keys[..i] == keys;
    }
  }

  // ---------------------------------------------------------------------------------------------
  // Garbage collection is invisible

  /** Every decision of a run; with `sweeps` false nothing is ever thrown away. */
  function Run(st: State, calls: seq<Call>, sweeps: bool): (r: (State, seq<Decision>))
    requires Callable(calls)
    ensures |r.1| == |calls|
    decreases |calls|
  {
    if calls == [] then (st, [])
    else
      var n := |calls| - 1;
      var (before, decisions) := Run(st, calls[..n], sweeps);
      var (after, decision) := Answered(if sweeps then Swept(before, calls[n].at) else before, calls[n]);
      (after, decisions + [decision])
  }

  ghost predicate InTime(calls: seq<Call>) {
    forall i, j :: 0 <= i < j < |calls| ==> calls[i].at <= calls[j].at
  }

  /** Every rule is checked with one window size. */
  ghost predicate OneWindow(calls: seq<Call>, windowOf: string -> int) {
    forall c :: c in calls && c.Check? ==> c.limits.windowMs == windowOf(c.rule) > 0
  }

  ghost predicate Dated(buckets: map<Key, Bucket>, windowOf: string -> int) {
    forall k :: k in buckets ==> buckets[k].expiresAt == (buckets[k].window + 2) * windowOf(k.rule)
  }

  /** `slim` is `full` without entries that were dead at `now`. */
  ghost predicate Thinner(slim: State, full: State, now: int) {
    && slim.nextSweepAt >= 0
    && (forall k :: k in slim.buckets ==> k in full.buckets && full.buckets[k] == slim.buckets[k])
    && (forall k :: k in full.buckets && k !in slim.buckets ==> full.buckets[k].expiresAt <= now)
    && (forall k :: k in slim.cooldowns ==> k in full.cooldowns && full.cooldowns[k] == slim.cooldowns[k])
    && (forall k :: k in full.cooldowns && k !in slim.cooldowns ==> full.cooldowns[k] <= now && 0 <= now)
  }

  lemma LaterThinner(slim: State, full: State, now: int, later: int)
    requires Thinner(slim, full, now) && now <= later
    ensures Thinner(slim, full, later) && Thinner(Swept(slim, later), full, later)
  {
  }

  /** A bucket that has expired no longer matters: its window is neither the current one nor the one before. */
  lemma ExpiredIsForgotten(b: Bucket, now: int, windowMs: int)
    requires windowMs > 0 && b.expiresAt == (b.window + 2) * windowMs && b.expiresAt <= now
    ensures Opened(Some(b), Window(now, windowMs), windowMs) == Opened(None, Window(now, windowMs), windowMs)
  {
    var w := Window(now, windowMs);
    if w < b.window + 2 {
      assert (w + 1) * windowMs <= (b.window + 2) * windowMs;
    }
  }

  /** Counting one call finds the same bucket in both. */
  lemma HitThinner(slim: State, full: State, key: Key, now: int, l: Limits, windowOf: string -> int)
    requires Thinner(slim, full, now) && Dated(full.buckets, windowOf) && l.windowMs == windowOf(key.rule) > 0
    ensures
      var w := Window(now, l.windowMs);
      var b := Hit(full.buckets, key, w, l);
      && Hit(slim.buckets, key, w, l) == b
      && Thinner(slim.(buckets := slim.buckets[key := b]), full.(buckets := full.buckets[key := b]), now)
      && Dated(full.buckets[key := b], windowOf)
  {
    if key in full.buckets && key !in slim.buckets {
      ExpiredIsForgotten(full.buckets[key], now, l.windowMs);
    }
  }

  lemma {:induction false} HitAllThinner(slim: State, full: State, keys: seq<Key>, rule: string, now: int, l: Limits,
                                         windowOf: string -> int)
    requires Thinner(slim, full, now) && Dated(full.buckets, windowOf)
    requires (forall k :: k in keys ==> k.rule == rule) && l.windowMs == windowOf(rule) > 0
    ensures
      var (a, d) := HitAll(slim.buckets, keys, Window(now, l.windowMs), l);
      var (b, e) := HitAll(full.buckets, keys, Window(now, l.windowMs), l);
      d == e && Thinner(slim.(buckets := a), full.(buckets := b), now) && Dated(b, windowOf)
    decreases |keys|
  {
    if keys != [] {
      var n := |keys| - 1;
      var w := Window(now, l.windowMs);
      HitAllThinner(slim, full, keys[..n], rule, now, l, windowOf);
      var (a, d) := HitAll(slim.buckets, keys[..n], w, l);
      var (b, e) := HitAll(full.buckets, keys[..n], w, l);
      HitThinner(slim.(buckets := a), full.(buckets := b), keys[n], now, l, windowOf);
    }
  }

  lemma {:induction false} ChilledKeys(cooldowns: map<Key, int>, keys: seq<Key>, until: int)
    ensures
      var r := Chilled(cooldowns, keys, until);
      && (forall k :: k in r <==> k in cooldowns || k in keys)
      && (forall k :: k in r ==> r[k] == if k in keys then until else cooldowns[k])
    decreases |keys|
  {
    if keys != [] {
      var n := |keys| - 1;
      ChilledKeys(cooldowns, keys[..n], until);
      assert keys == keys[..n] + [keys[n]];
    }
  }

  lemma ChillThinner(slim: State, full: State, keys: seq<Key>, now: int, until: int)
    requires Thinner(slim, full, now)
    ensures Cool(slim.cooldowns, keys, now) <==> Cool(full.cooldowns, keys, now)
    ensures Thinner(slim.(cooldowns := Chilled(slim.cooldowns, keys, until)),
                    full.(cooldowns := Chilled(full.cooldowns, keys, until)), now)
  {
    ChilledKeys(slim.cooldowns, keys, until);
    ChilledKeys(full.cooldowns, keys, until);
  }

  lemma CheckThinner(slim: State, full: State, c: Call, windowOf: string -> int)
    requires c.Check?
    requires WellTyped(c) && OneWindow([c], windowOf)
    requires Thinner(slim, full, c.at) && Dated(full.buckets, windowOf)
    ensures
      var (a, d) := Answered(slim, c);
      var (b, e) := Answered(full, c);
      d == e && Thinner(a, b, c.at) && Dated(b.buckets, windowOf)
  {
    assert c in [c];
    HitAllThinner(slim, full, Keys(c), c.rule, c.at, c.limits, windowOf);
  }

  lemma AnsweredThinner(slim: State, full: State, c: Call, windowOf: string -> int)
    requires WellTyped(c) && OneWindow([c], windowOf)
    requires Thinner(slim, full, c.at) && Dated(full.buckets, windowOf)
    ensures
      var (a, d) := Answered(slim, c);
      var (b, e) := Answered(full, c);
      d == e && Thinner(a, b, c.at) && Dated(b.buckets, windowOf)
  {
    match c
    case Check(_, _, _, _, _) => CheckThinner(slim, full, c, windowOf);
    case Cooldown(at, _, _, _, cooldownMs) => ChillThinner(slim, full, Keys(c), at, at + cooldownMs);
  }

  lemma {:induction false} SweepingRun(calls: seq<Call>, now: int, windowOf: string -> int)
    requires Callable(calls)
    requires InTime(calls) && OneWindow(calls, windowOf)
    requires calls != [] ==> calls[|calls| - 1].at <= now
    ensures
      var (a, d) := Run(EMPTY, calls, true);
      var (b, e) := Run(EMPTY, calls, false);
      d == e && Thinner(a, b, now) && Dated(b.buckets, windowOf)
    decreases |calls|
  {
    if calls != [] {
      var n := |calls| - 1;
      var c := calls[n];
      SweepingRun(calls[..n], c.at, windowOf);
      var a := Run(EMPTY, calls[..n], true).0;
      var b := Run(EMPTY, calls[..n], false).0;
      LaterThinner(a, b, c.at, c.at);
      AnsweredThinner(Swept(a, c.at), b, c, windowOf);
      LaterThinner(Run(EMPTY, calls, true).0, Run(EMPTY, calls, false).0, c.at, now);
    }
  }

  /**
   Garbage collection is invisible: over every run with a clock that does not go back and one window size per
   rule, the limiter decides exactly as one that never throws anything away.
   */
  lemma SweepingIsInvisible(calls: seq<Call>, windowOf: string -> int)
    requires Callable(calls)
    requires InTime(calls) && OneWindow(calls, windowOf)
    ensures Run(EMPTY, calls, true).1 == Run(EMPTY, calls, false).1
  {
    SweepingRun(calls, if calls == [] then 0 else calls[|calls| - 1].at, windowOf);
  }

  lemma HitOne(buckets: map<Key, Bucket>, key: Key, window: int, l: Limits)
    ensures
      var b := Hit(buckets, key, window, l);
      HitAll(buckets, [key], window, l) == (buckets[key := b], Verdict(b, l))
  {
    assert [key][..0] == [];
  }

  lemma RunTwo(a: Call, b: Call, sweeps: bool)
    requires WellTyped(a) && WellTyped(b)
    ensures
      var first := Answered(if sweeps then Swept(EMPTY, a.at) else EMPTY, a).0;
      Run(EMPTY, [a, b], sweeps).1[1] == Answered(if sweeps then Swept(first, b.at) else first, b).1
  {
    assert [a, b][..1] == [a] && [a][..0] == [];
    assert Run(EMPTY, [], sweeps) == (EMPTY, []);
  }

  function VisitAt(rule: string, at: int, size: int): Call {
    Check(at, rule, Subject(1, 1, None), {Ip}, Limits(1, size, 5, 5))
  }

  function VisitKey(rule: string): Key {
    Key(rule, Ip, 1)
  }

  /** A window number that two sizes share at times so far apart that a sweep comes between and takes the bucket. */
  function SharedWindow(small: int): int {
    SWEEP_INTERVAL_MS + 2 * small
  }

  lemma WindowStarts(n: int, size: int)
    requires size > 0
    ensures Window(n * size, size) == n
  {
    var w := Window(n * size, size);
    if w < n {
      ProductsGrow(w + 1, n, size);
    } else if w > n {
      ProductsGrow(n + 1, w, size);
    }
  }

  lemma FarApart(n: int, small: int, large: int)
    requires 0 < small < large && n >= SWEEP_INTERVAL_MS && n >= 2 * small
    ensures 0 <= n * small
    ensures n * small + SWEEP_INTERVAL_MS <= n * large
    ensures (n + 2) * small <= n * large
  {
    ProductsGrow(small + 1, large, n);
    assert (small + 1) * n == n * small + n;
    assert (n + 2) * small == n * small + 2 * small;
  }

  /** The first of two visits leaves one bucket, which a sweep at the second one takes. */
  lemma FirstVisit(rule: string, small: int, large: int)
    requires 0 < small < large
    ensures
      var n := SharedWindow(small);
      var st := Answered(Swept(EMPTY, n * small), VisitAt(rule, n * small, small)).0;
      && Answered(EMPTY, VisitAt(rule, n * small, small)).0.buckets
         == map[VisitKey(rule) := Bucket(n, (n + 2) * small, 1, false, 0, false, 0)]
      && Swept(st, n * large).buckets == map[]
  {
    var n := SharedWindow(small);
    FarApart(n, small, large);
    WindowStarts(n, small);
    var visit := VisitAt(rule, n * small, small);
    assert Keys(visit) == [VisitKey(rule)];
    assert Swept(EMPTY, n * small).buckets == map[];
    HitOne(map[], VisitKey(rule), n, visit.limits);
  }

  /** Any two window sizes of one rule can see the sweep: two visits get another answer than without sweeping. */
  lemma TwoWindowsSeeTheSweep(rule: string, small: int, large: int)
    requires 0 < small < large
    ensures
      var n := SharedWindow(small);
      var visits := [VisitAt(rule, n * small, small), VisitAt(rule, n * large, large)];
      && InTime(visits)
      && Run(EMPTY, visits, true).1[1].allowed && !Run(EMPTY, visits, false).1[1].allowed
  {
    var n := SharedWindow(small);
    var first, second := VisitAt(rule, n * small, small), VisitAt(rule, n * large, large);
    FarApart(n, small, large);
    RunTwo(first, second, true);
    RunTwo(first, second, false);
    FirstVisit(rule, small, large);
    WindowStarts(n, large);
    assert Keys(second) == [VisitKey(rule)];
    HitOne(map[], VisitKey(rule), n, second.limits);
    HitOne(Answered(EMPTY, first).0.buckets, VisitKey(rule), n, second.limits);
  }

  /** Which window sizes the callers use for which rule. */
  type Sizes = (string, int) -> bool

  ghost predicate Admitted(calls: seq<Call>, sizes: Sizes) {
    forall c :: c in calls && c.Check? ==> sizes(c.rule, c.limits.windowMs)
  }

  ghost predicate SameDecisions(calls: seq<Call>)
    requires Callable(calls)
  {
    Run(EMPTY, calls, true).1 == Run(EMPTY, calls, false).1
  }

  ghost predicate NeverSeen(sizes: Sizes) {
    forall calls :: Callable(calls) && InTime(calls) && Admitted(calls, sizes) ==> SameDecisions(calls)
  }

  ghost predicate AtMostOneSize(sizes: Sizes) {
    forall rule, a, b :: a > 0 && b > 0 && sizes(rule, a) && sizes(rule, b) ==> a == b
  }

  /** The window size of a rule, when it has one. */
  ghost function SizeOf(sizes: Sizes, rule: string): (size: int)
    ensures size > 0
    ensures (exists w :: w > 0 && sizes(rule, w)) ==> sizes(rule, size)
  {
    if w :| w > 0 && sizes(rule, w) then w else 1
  }

  /** The sweep is invisible in every run with a clock that does not go back if and only if no rule has two sizes. */
  lemma SweepUnseenExactly(sizes: Sizes)
    ensures NeverSeen(sizes) <==> AtMostOneSize(sizes)
  {
    if AtMostOneSize(sizes) {
      forall calls | Callable(calls) && InTime(calls) && Admitted(calls, sizes) ensures SameDecisions(calls) {
        SweepingIsInvisible(calls, (rule: string) => SizeOf(sizes, rule));
      }
    } else {
      var rule, small, large :| 0 < small < large && sizes(rule, small) && sizes(rule, large);
      var n := SharedWindow(small);
      var visits := [VisitAt(rule, n * small, small), VisitAt(rule, n * large, large)];
      TwoWindowsSeeTheSweep(rule, small, large);
      assert Callable(visits) && InTime(visits) && Admitted(visits, sizes) && !SameDecisions(visits);
    }
  }

  // ---------------------------------------------------------------------------------------------
  // What the streaks mean

  /** How often a key was counted in a window; `hits` are the windows of its calls, in order. */
  function Count(hits: seq<int>, window: int): nat
    decreases |hits|
  {
    if hits == [] then 0
    else Count(hits[..|hits| - 1], window) + if hits[|hits| - 1] == window then 1 else 0
  }

  predicate Exceeded(hits: seq<int>, window: int, threshold: nat) {
    Count(hits, window) > threshold
  }

  /** The threshold was exceeded in each of the `n` windows that end with `window`. */
  predicate ExceededFor(hits: seq<int>, window: int, threshold: nat, n: nat)
    decreases n
  {
    n > 0 ==> Exceeded(hits, window, threshold) && ExceededFor(hits, window - 1, threshold, n - 1)
  }

  /** The streak counts the windows, ending with this one, in which the threshold was exceeded. */
  ghost predicate Counts(hits: seq<int>, window: int, threshold: nat, streak: nat) {
    forall n: nat :: streak >= n <==> ExceededFor(hits, window, threshold, n)
  }

  /** A flag for the current window, and a streak up to it, or up to the window before while the flag is down. */
  ghost predicate Streak(hits: seq<int>, window: int, threshold: nat, flag: bool, streak: nat) {
    && (flag <==> Exceeded(hits, window, threshold))
    && Counts(hits, if flag then window else window - 1, threshold, streak)
  }

  ghost predicate Ascending(hits: seq<int>) {
    forall i, j :: 0 <= i < j < |hits| ==> hits[i] <= hits[j]
  }

  lemma CountSnoc(hits: seq<int>, w: int, window: int)
    ensures Count(hits + [w], window) == Count(hits, window) + if w == window then 1 else 0
  {
    assert (hits + [w])[..|hits|] == hits;
  }

  lemma {:induction false} CountAhead(hits: seq<int>, window: int)
    requires forall i :: 0 <= i < |hits| ==> hits[i] < window
    ensures Count(hits, window) == 0
    decreases |hits|
  {
    if hits != [] {
      CountAhead(hits[..|hits| - 1], window);
    }
  }

  /** Earlier windows do not notice a later call. */
  lemma {:induction false} ExceededForSnoc(hits: seq<int>, w: int, window: int, threshold: nat, n: nat)
    requires window < w
    ensures ExceededFor(hits + [w], window, threshold, n) <==> ExceededFor(hits, window, threshold, n)
    decreases n
  {
    if n > 0 {
      CountSnoc(hits, w, window);
      ExceededForSnoc(hits, w, window - 1, threshold, n - 1);
    }
  }

  lemma NoStreak(hits: seq<int>, window: int, threshold: nat)
    requires !Exceeded(hits, window, threshold)
    ensures Counts(hits, window, threshold, 0)
  {
  }

  /** Opening a window: nothing is counted in it, and the streak is that of the window before. */
  lemma OpenCarries(hits: seq<int>, last: int, window: int, threshold: nat, flag: bool, streak: nat)
    requires hits != [] && Ascending(hits) && hits[|hits| - 1] == last < window
    requires Streak(hits, last, threshold, flag, streak)
    ensures Count(hits, window) == 0
    ensures Streak(hits, window, threshold, false, if last == window - 1 && flag then streak else 0)
  {
    CountAhead(hits, window);
    if last < window - 1 {
      CountAhead(hits, window - 1);
    }
    if last < window - 1 || !flag {
      NoStreak(hits, window - 1, threshold);
    }
  }

  /** Counting one call keeps the streak's meaning. */
  lemma CountKeepsStreak(hits: seq<int>, window: int, threshold: nat, flag: bool, streak: nat)
    requires Streak(hits, window, threshold, flag, streak)
    ensures
      var over := Count(hits, window) + 1 > threshold;
      Streak(hits + [window], window, threshold, flag || over, if over && !flag then streak + 1 else streak)
  {
    var after := hits + [window];
    CountSnoc(hits, window, window);
    var over := Count(hits, window) + 1 > threshold;
    var s := if over && !flag then streak + 1 else streak;
    if over {
      forall n: nat ensures s >= n <==> ExceededFor(after, window, threshold, n) {
        if n > 0 {
          ExceededForSnoc(hits, window, window - 1, threshold, n - 1);
          if flag {
            assert ExceededFor(hits, window, threshold, n) <==> ExceededFor(hits, window - 1, threshold, n - 1);
          }
        }
      }
    } else {
      var before := window - 1;
      forall n: nat ensures s >= n <==> ExceededFor(after, before, threshold, n) {
        ExceededForSnoc(hits, window, before, threshold, n);
      }
    }
  }

  /** A bucket tells the story of its key. */
  ghost predicate Tells(b: Bucket, hits: seq<int>, l: Limits) {
    && hits != [] && Ascending(hits) && l.limit >= 0 && l.multiplier >= 0
    && b.window == hits[|hits| - 1] && b.count == Count(hits, b.window)
    && Streak(hits, b.window, l.limit, b.violated, b.violationStreak)
    && Streak(hits, b.window, Threshold(l), b.abusive, b.abusiveStreak)
  }

  /** A key without a bucket was never counted. */
  ghost predicate Told(bucket: Option<Bucket>, hits: seq<int>, l: Limits) {
    if bucket.None? then hits == [] else Tells(bucket.value, hits, l)
  }

  function Threshold(l: Limits): nat {
    if l.limit * l.multiplier >= 0 then l.limit * l.multiplier else 0
  }

  /** A freshly opened bucket, before its first call is counted. */
  lemma OpenedStreaks(bucket: Option<Bucket>, hits: seq<int>, window: int, l: Limits)
    requires l.limit >= 0 && l.multiplier >= 0
    requires Told(bucket, hits, l) && (bucket.Some? ==> bucket.value.window <= window)
    ensures
      var b := Opened(bucket, window, l.windowMs);
      && b.window == window && b.count == Count(hits, window)
      && Streak(hits, window, l.limit, b.violated, b.violationStreak)
      && Streak(hits, window, Threshold(l), b.abusive, b.abusiveStreak)
  {
    if bucket.None? {
      NoStreak(hits, window - 1, l.limit);
      NoStreak(hits, window - 1, Threshold(l));
    } else if bucket.value.window < window {
      var b := bucket.value;
      OpenCarries(hits, b.window, window, l.limit, b.violated, b.violationStreak);
      OpenCarries(hits, b.window, window, Threshold(l), b.abusive, b.abusiveStreak);
    }
  }

  lemma HitTells(bucket: Option<Bucket>, hits: seq<int>, window: int, l: Limits)
    requires l.limit >= 0 && l.multiplier >= 0
    requires Told(bucket, hits, l) && (bucket.Some? ==> bucket.value.window <= window)
    ensures Tells(Counted(Opened(bucket, window, l.windowMs), l), hits + [window], l)
  {
    OpenedStreaks(bucket, hits, window, l);
    var b := Opened(bucket, window, l.windowMs);
    CountSnoc(hits, window, window);
    CountKeepsStreak(hits, window, l.limit, b.violated, b.violationStreak);
    CountKeepsStreak(hits, window, Threshold(l), b.abusive, b.abusiveStreak);
    assert l.limit * l.multiplier == Threshold(l) by {
      ProductNotNegative(l.limit, l.multiplier);
    }
  }

  lemma ProductNotNegative(a: nat, b: nat)
    ensures a * b >= 0
  {
  }

  /** What a verdict says about a key, in terms of the key's calls alone. */
  ghost predicate Meaning(d: Decision, hits: seq<int>, window: int, l: Limits)
    requires l.limit >= 0 && l.runLength >= 0
  {
    && (!d.allowed <==> Exceeded(hits, window, l.limit))
    && (d.persistent <==> ThreeWindows(hits, window, l.limit))
    && (d.abusive <==> Exceeded(hits, window, Threshold(l)) && ExceededFor(hits, window, Threshold(l), l.runLength))
  }

  lemma VerdictMeans(b: Bucket, hits: seq<int>, l: Limits)
    requires Tells(b, hits, l) && l.runLength >= 0
    ensures Meaning(Verdict(b, l), hits, b.window, l)
  {
    ProductNotNegative(l.limit, l.multiplier);
    var w := b.window;
    assert ThreeWindows(hits, w, l.limit) <==> ExceededFor(hits, w, l.limit, 3) by {
      assert ExceededFor(hits, w - 1, l.limit, 2)
          <==> Exceeded(hits, w - 1, l.limit) && ExceededFor(hits, w - 2, l.limit, 1);
    }
  }

  /** In this window and in each of the two before it. */
  predicate ThreeWindows(hits: seq<int>, window: int, threshold: nat) {
    Exceeded(hits, window, threshold) && Exceeded(hits, window - 1, threshold) && Exceeded(hits, window - 2, threshold)
  }

  // ---------------------------------------------------------------------------------------------
  // From single keys to whole runs

  /** The windows in which a key was counted. */
  function Hits(calls: seq<Call>, key: Key): seq<int>
    requires Callable(calls)
    decreases |calls|
  {
    if calls == [] then []
    else
      var c := calls[|calls| - 1];
      assert c in calls;
      Hits(calls[..|calls| - 1], key)
      + if c.Check? && key in Keys(c) then [Window(c.at, c.limits.windowMs)] else []
  }

  /** Every rule keeps its limits. */
  ghost predicate FixedLimits(calls: seq<Call>, limitsOf: string -> Limits) {
    forall c :: c in calls && c.Check? ==>
      var l := c.limits;
      l == limitsOf(c.rule) && l.windowMs > 0 && l.limit >= 0 && l.multiplier >= 0 && l.runLength >= 0
  }

  ghost predicate AllTell(buckets: map<Key, Bucket>, calls: seq<Call>, limitsOf: string -> Limits)
    requires Callable(calls)
  {
    forall k :: Told(Find(buckets, k), Hits(calls, k), limitsOf(k.rule))
  }

  /** Each key of a call is counted once, in its own bucket. */
  lemma {:induction false} HitEach(buckets: map<Key, Bucket>, keys: seq<Key>, window: int, l: Limits)
    requires forall i, j :: 0 <= i < j < |keys| ==> keys[i] != keys[j]
    ensures
      var after := HitAll(buckets, keys, window, l).0;
      && (forall k :: k in after <==> k in buckets || k in keys)
      && (forall k :: k in after ==> after[k] == if k in keys then Hit(buckets, k, window, l) else buckets[k])
    decreases |keys|
  {
    if keys != [] {
      var n := |keys| - 1;
      HitEach(buckets, keys[..n], window, l);
      assert keys == keys[..n] + [keys[n]];
      assert keys[n] !in keys[..n];
    }
  }

  /** Counting the earlier keys of a call leaves the last one's bucket alone. */
  lemma LastKeyFresh(buckets: map<Key, Bucket>, keys: seq<Key>, window: int, l: Limits)
    requires keys != [] && forall i, j :: 0 <= i < j < |keys| ==> keys[i] != keys[j]
    ensures
      var n := |keys| - 1;
      && Hit(HitAll(buckets, keys[..n], window, l).0, keys[n], window, l) == Hit(buckets, keys[n], window, l)
      && forall k :: k in keys <==> k in keys[..n] || k == keys[n]
  {
    var n := |keys| - 1;
    HitEach(buckets, keys[..n], window, l);
    assert keys == keys[..n] + [keys[n]];
  }

  /** The decision joins the verdicts of the call's keys. */
  lemma {:induction false} DecisionJoins(buckets: map<Key, Bucket>, keys: seq<Key>, window: int, l: Limits)
    requires forall i, j :: 0 <= i < j < |keys| ==> keys[i] != keys[j]
    ensures
      var decision := HitAll(buckets, keys, window, l).1;
      && (decision.allowed <==> forall k :: k in keys ==> Verdict(Hit(buckets, k, window, l), l).allowed)
      && (!decision.persistent <==> forall k :: k in keys ==> !Verdict(Hit(buckets, k, window, l), l).persistent)
      && (!decision.abusive <==> forall k :: k in keys ==> !Verdict(Hit(buckets, k, window, l), l).abusive)
    decreases |keys|
  {
    if keys != [] {
      DecisionJoins(buckets, keys[..|keys| - 1], window, l);
      LastKeyFresh(buckets, keys, window, l);
    }
  }

  lemma ProductsGrow(a: int, b: int, c: int)
    requires a <= b && c > 0
    ensures a * c <= b * c
  {
  }

  lemma WindowsGrow(now: int, later: int, windowMs: int)
    requires windowMs > 0 && now <= later
    ensures Window(now, windowMs) <= Window(later, windowMs)
  {
    var a, b := Window(now, windowMs), Window(later, windowMs);
    if b + 1 <= a {
      ProductsGrow(b + 1, a, windowMs);
    }
  }

  lemma {:induction false} HitsAreEarlier(calls: seq<Call>, key: Key, now: int, limitsOf: string -> Limits)
    requires Callable(calls) && FixedLimits(calls, limitsOf) && limitsOf(key.rule).windowMs > 0
    requires forall c :: c in calls ==> c.at <= now
    ensures forall h :: h in Hits(calls, key) ==> h <= Window(now, limitsOf(key.rule).windowMs)
    decreases |calls|
  {
    if calls != [] {
      var n := |calls| - 1;
      var c := calls[n];
      assert c in calls;
      HitsAreEarlier(calls[..n], key, now, limitsOf);
      if c.Check? && key in Keys(c) {
        WindowsGrow(c.at, now, c.limits.windowMs);
      }
    }
  }

  /** A call and one of its keys: the bucket after it tells the key's story. */
  lemma KeyTells(bucket: Option<Bucket>, calls: seq<Call>, c: Call, limitsOf: string -> Limits, k: Key)
    requires Callable(calls) && FixedLimits(calls, limitsOf) && FixedLimits([c], limitsOf)
    requires c.Check? && WellTyped(c) && k in Keys(c) && forall d :: d in calls ==> d.at <= c.at
    requires Told(bucket, Hits(calls, k), limitsOf(k.rule))
    ensures
      var w := Window(c.at, c.limits.windowMs);
      var b := Counted(Opened(bucket, w, c.limits.windowMs), c.limits);
      c.limits == limitsOf(k.rule) && Tells(b, Hits(calls, k) + [w], c.limits) && b.window == w
  {
    assert c in [c];
    HitsAreEarlier(calls, k, c.at, limitsOf);
    if bucket.Some? {
      assert bucket.value.window in Hits(calls, k);
    }
    HitTells(bucket, Hits(calls, k), Window(c.at, c.limits.windowMs), c.limits);
  }

  lemma HitsSnoc(calls: seq<Call>, c: Call, k: Key)
    requires Callable(calls) && WellTyped(c)
    ensures Callable(calls + [c])
    ensures Hits(calls + [c], k)
         == Hits(calls, k) + if c.Check? && k in Keys(c) then [Window(c.at, c.limits.windowMs)] else []
  {
    assert (calls + [c])[..|calls|] == calls;
  }

  /** One call adds its window to the story of each of its keys. */
  lemma CheckTells(buckets: map<Key, Bucket>, calls: seq<Call>, c: Call, limitsOf: string -> Limits)
    requires Callable(calls) && FixedLimits(calls, limitsOf) && FixedLimits([c], limitsOf)
    requires c.Check? && WellTyped(c) && Callable(calls + [c]) && forall d :: d in calls ==> d.at <= c.at
    requires AllTell(buckets, calls, limitsOf)
    ensures AllTell(HitAll(buckets, Keys(c), Window(c.at, c.limits.windowMs), c.limits).0, calls + [c], limitsOf)
  {
    HitEach(buckets, Keys(c), Window(c.at, c.limits.windowMs), c.limits);
    var after := HitAll(buckets, Keys(c), Window(c.at, c.limits.windowMs), c.limits).0;
    forall k ensures Told(Find(after, k), Hits(calls + [c], k), limitsOf(k.rule)) {
      HitsSnoc(calls, c, k);
      assert Told(Find(buckets, k), Hits(calls, k), limitsOf(k.rule));
      if k in Keys(c) {
        KeyTells(Find(buckets, k), calls, c, limitsOf, k);
        assert Find(after, k) == Some(Hit(buckets, k, Window(c.at, c.limits.windowMs), c.limits));
      } else {
        assert Find(after, k) == Find(buckets, k) && Hits(calls + [c], k) == Hits(calls, k);
      }
    }
  }

  lemma Snoc(calls: seq<Call>, limitsOf: string -> Limits)
    requires calls != [] && Callable(calls) && InTime(calls) && FixedLimits(calls, limitsOf)
    ensures
      var c := calls[|calls| - 1];
      && calls == calls[..|calls| - 1] + [c]
      && WellTyped(c) && FixedLimits([c], limitsOf)
      && forall d :: d in calls[..|calls| - 1] ==> d.at <= c.at
  {
    assert calls[|calls| - 1] in calls;
  }

  lemma {:induction false} RunTells(calls: seq<Call>, limitsOf: string -> Limits)
    requires Callable(calls) && InTime(calls) && FixedLimits(calls, limitsOf)
    ensures AllTell(Run(EMPTY, calls, false).0.buckets, calls, limitsOf)
    decreases |calls|
  {
    if calls != [] {
      var front, c := calls[..|calls| - 1], calls[|calls| - 1];
      Snoc(calls, limitsOf);
      RunTells(front, limitsOf);
      if c.Check? {
        CheckTells(Run(EMPTY, front, false).0.buckets, front, c, limitsOf);
      } else {
        forall k: Key ensures Hits(calls, k) == Hits(front, k) {
          HitsSnoc(front, c, k);
        }
      }
    }
  }

  lemma KeysMean(buckets: map<Key, Bucket>, calls: seq<Call>, c: Call, limitsOf: string -> Limits)
    requires Callable(calls) && FixedLimits(calls, limitsOf) && FixedLimits([c], limitsOf)
    requires c.Check? && WellTyped(c) && Callable(calls + [c]) && forall d :: d in calls ==> d.at <= c.at
    requires AllTell(buckets, calls, limitsOf)
    ensures
      assert c in [c];
      var w := Window(c.at, c.limits.windowMs);
      forall k :: k in Keys(c)
          ==> Meaning(Verdict(Hit(buckets, k, w, c.limits), c.limits), Hits(calls + [c], k), w, c.limits)
  {
    assert c in [c];
    var w := Window(c.at, c.limits.windowMs);
    forall k | k in Keys(c)
      ensures Meaning(Verdict(Hit(buckets, k, w, c.limits), c.limits), Hits(calls + [c], k), w, c.limits)
    {
      HitsSnoc(calls, c, k);
      assert Told(Find(buckets, k), Hits(calls, k), limitsOf(k.rule));
      KeyTells(Find(buckets, k), calls, c, limitsOf, k);
      VerdictMeans(Hit(buckets, k, w, c.limits), Hits(calls + [c], k), c.limits);
    }
  }

  /** The last decision of the sweeping limiter is the one counting from full stories. */
  lemma LastDecision(calls: seq<Call>, limitsOf: string -> Limits) returns (buckets: map<Key, Bucket>)
    requires calls != [] && Callable(calls) && InTime(calls) && FixedLimits(calls, limitsOf)
    requires calls[|calls| - 1].Check?
    ensures
      var c := calls[|calls| - 1];
      assert c in calls;
      && AllTell(buckets, calls[..|calls| - 1], limitsOf)
      && Run(EMPTY, calls, true).1[|calls| - 1]
         == HitAll(buckets, Keys(c), Window(c.at, c.limits.windowMs), c.limits).1
  {
    var front := calls[..|calls| - 1];
    Snoc(calls, limitsOf);
    SweepingIsInvisible(calls, (r: string) => limitsOf(r).windowMs);
    RunTells(front, limitsOf);
    buckets := Run(EMPTY, front, false).0.buckets;
  }

  /** When each key's verdict has its meaning, the joined decision has it for some key. */
  lemma JoinedMeans(buckets: map<Key, Bucket>, keys: seq<Key>, w: int, l: Limits, calls: seq<Call>)
    requires l.limit >= 0 && l.multiplier >= 0 && l.runLength >= 0 && Callable(calls)
    requires forall i, j :: 0 <= i < j < |keys| ==> keys[i] != keys[j]
    requires forall k :: k in keys ==> Meaning(Verdict(Hit(buckets, k, w, l), l), Hits(calls, k), w, l)
    ensures
      var decision := HitAll(buckets, keys, w, l).1;
      && (!decision.allowed <==> exists k :: k in keys && Exceeded(Hits(calls, k), w, l.limit))
      && (decision.persistent <==> exists k :: k in keys && ThreeWindows(Hits(calls, k), w, l.limit))
      && (decision.abusive <==> exists k :: k in keys && Exceeded(Hits(calls, k), w, Threshold(l))
                                            && ExceededFor(Hits(calls, k), w, Threshold(l), l.runLength))
  {
    DecisionJoins(buckets, keys, w, l);
  }

  /**
   The history meaning of a decision, for the limiter as it is, sweeping included: a call is refused exactly
   when one of its keys was called more than `limit` times in this window, reported as persistent exactly when
   one key exceeded the limit in this window and in both before it, and as abusive exactly when one key exceeded
   the multiplied limit in this window and in the whole run of windows that ends with it.
   */
  lemma DecisionMeans(calls: seq<Call>, limitsOf: string -> Limits)
    requires calls != [] && Callable(calls) && InTime(calls) && FixedLimits(calls, limitsOf)
    requires calls[|calls| - 1].Check?
    ensures
      var c := calls[|calls| - 1];
      assert c in calls;
      var l, w := c.limits, Window(c.at, c.limits.windowMs);
      var decision := Run(EMPTY, calls, true).1[|calls| - 1];
      && (!decision.allowed <==> exists k :: k in Keys(c) && Exceeded(Hits(calls, k), w, l.limit))
      && (decision.persistent <==> exists k :: k in Keys(c) && ThreeWindows(Hits(calls, k), w, l.limit))
      && (decision.abusive <==> exists k :: k in Keys(c) && Exceeded(Hits(calls, k), w, Threshold(l))
                                            && ExceededFor(Hits(calls, k), w, Threshold(l), l.runLength))
  {
    var c := calls[|calls| - 1];
    var buckets := LastDecision(calls, limitsOf);
    Snoc(calls, limitsOf);
    KeysMean(buckets, calls[..|calls| - 1], c, limitsOf);
    JoinedMeans(buckets, Keys(c), Window(c.at, c.limits.windowMs), c.limits, calls);
  }
}
