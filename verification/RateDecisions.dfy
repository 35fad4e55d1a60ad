/**
 The decisions of the rate limiter in terms of who called (server-game/src/gateway/rate-limit.ts:70-145): connections,
 addresses and users instead of keys.
 */
module RateDecisions {
  import opened Wrappers
  import opened RateLimit

  /** Do two subjects come from the same connection, the same address or the same known user? */
  predicate SameSource(scope: Scope, a: Subject, b: Subject) {
    match scope
    case Connection => a.connectionId == b.connectionId
    case Ip => a.ip == b.ip
    case User => a.userId.Some? && a.userId == b.userId
  }

  /** Two calls of one rule that both name the scope and come from the same source. */
  predicate Shares(a: Call, b: Call, scope: Scope) {
    a.rule == b.rule && scope in a.scopes && scope in b.scopes && SameSource(scope, a.subject, b.subject)
  }

  function KeyOf(c: Call, scope: Scope): Option<Key> {
    if scope !in c.scopes then None
    else
      match scope
      case Connection => Some(Key(c.rule, Connection, c.subject.connectionId))
      case Ip => Some(Key(c.rule, Ip, c.subject.ip))
      case User => if c.subject.userId.Some? then Some(Key(c.rule, User, c.subject.userId.value)) else None
  }

  lemma KeysAre(c: Call)
    ensures forall k :: k in Keys(c) <==> KeyOf(c, k.scope) == Some(k)
  {
  }

  lemma SharedKey(a: Call, b: Call, k: Key)
    requires k in Keys(b)
    ensures k in Keys(a) <==> Shares(a, b, k.scope)
  {
    KeysAre(a);
    KeysAre(b);
  }

  /** A scope that a call shares with itself is one of its keys. */
  lemma OwnKey(c: Call, scope: Scope)
    ensures Shares(c, c, scope) <==> KeyOf(c, scope).Some?
    ensures KeyOf(c, scope).Some? ==> KeyOf(c, scope).value in Keys(c) && KeyOf(c, scope).value.scope == scope
  {
    KeysAre(c);
  }

  // ---------------------------------------------------------------------------------------------
  // Checks

  /** How many checks of a window share a scope with the call. */
  function Made(calls: seq<Call>, c: Call, scope: Scope, window: int): nat
    requires Callable(calls)
    decreases |calls|
  {
    if calls == [] then 0
    else
      var last := calls[|calls| - 1];
      assert last in calls;
      Made(calls[..|calls| - 1], c, scope, window)
      + if last.Check? && Shares(last, c, scope) && Window(last.at, last.limits.windowMs) == window then 1 else 0
  }

  lemma {:induction false} MadeIsCount(calls: seq<Call>, c: Call, k: Key, window: int)
    requires Callable(calls) && k in Keys(c)
    ensures Count(Hits(calls, k), window) == Made(calls, c, k.scope, window)
    decreases |calls|
  {
    if calls != [] {
      var front, last := calls[..|calls| - 1], calls[|calls| - 1];
      assert last in calls;
      MadeIsCount(front, c, k, window);
      SharedKey(last, c, k);
      if last.Check? && k in Keys(last) {
        CountLast(Hits(front, k), Window(last.at, last.limits.windowMs), window);
      } else {
        assert Hits(front, k) + [] == Hits(front, k);
      }
    }
  }

  lemma CountLast(hits: seq<int>, w: int, window: int)
    ensures Count(hits + [w], window) == Count(hits, window) + if w == window then 1 else 0
  {
    assert (hits + [w])[..|hits|] == hits;
  }

  ghost predicate AllOver(hits: seq<int>, threshold: nat, from: int, to: int) {
    forall v :: from < v <= to ==> Count(hits, v) > threshold
  }

  lemma AllOverStep(hits: seq<int>, threshold: nat, from: int, to: int)
    requires from < to
    ensures AllOver(hits, threshold, from, to)
       <==> Count(hits, to) > threshold && AllOver(hits, threshold, from, to - 1)
  {
    if Count(hits, to) > threshold && AllOver(hits, threshold, from, to - 1) {
      forall v | from < v <= to ensures Count(hits, v) > threshold {
        assert v == to || v <= to - 1;
      }
    }
  }

  lemma {:induction false} ExceededForMeans(hits: seq<int>, window: int, threshold: nat, n: nat)
    ensures ExceededFor(hits, window, threshold, n) <==> AllOver(hits, threshold, window - n, window)
    decreases n
  {
    if n > 0 {
      ExceededForMeans(hits, window - 1, threshold, n - 1);
      assert (window - 1) - (n - 1) == window - n;
      AllOverStep(hits, threshold, window - n, window);
    }
  }

  /** More than `threshold` checks in each of the `n` windows that end with `window`. */
  ghost predicate TooMany(calls: seq<Call>, c: Call, scope: Scope, window: int, threshold: int, n: nat)
    requires Callable(calls)
  {
    forall v :: window - n < v <= window ==> Made(calls, c, scope, v) > threshold
  }

  lemma TooManyIs(calls: seq<Call>, c: Call, k: Key, window: int, threshold: nat, n: nat)
    requires Callable(calls) && k in Keys(c)
    ensures ExceededFor(Hits(calls, k), window, threshold, n) <==> TooMany(calls, c, k.scope, window, threshold, n)
  {
    ExceededForMeans(Hits(calls, k), window, threshold, n);
    if TooMany(calls, c, k.scope, window, threshold, n) {
      forall v | window - n < v <= window ensures Count(Hits(calls, k), v) > threshold {
        MadeIsCount(calls, c, k, v);
      }
    } else {
      var v :| window - n < v <= window && Made(calls, c, k.scope, v) <= threshold;
      MadeIsCount(calls, c, k, v);
    }
  }

  /** Nobody else's calls count: without a shared scope there are none. */
  lemma {:induction false} NoneMade(calls: seq<Call>, c: Call, scope: Scope, window: int)
    requires Callable(calls) && !Shares(c, c, scope)
    ensures Made(calls, c, scope, window) == 0
    decreases |calls|
  {
    if calls != [] {
      NoneMade(calls[..|calls| - 1], c, scope, window);
    }
  }

  /** Some scope has too many checks exactly when some key of the call exceeded the threshold so often. */
  lemma SomeScope(calls: seq<Call>, c: Call, window: int, threshold: nat, n: nat)
    requires Callable(calls) && n > 0
    ensures (exists scope :: TooMany(calls, c, scope, window, threshold, n))
       <==> (exists k :: k in Keys(c) && ExceededFor(Hits(calls, k), window, threshold, n))
  {
    if scope :| TooMany(calls, c, scope, window, threshold, n) {
      assert Made(calls, c, scope, window) > threshold;
      if !Shares(c, c, scope) {
        NoneMade(calls, c, scope, window);
      }
      OwnKey(c, scope);
      TooManyIs(calls, c, KeyOf(c, scope).value, window, threshold, n);
    }
    if k :| k in Keys(c) && ExceededFor(Hits(calls, k), window, threshold, n) {
      TooManyIs(calls, c, k, window, threshold, n);
    }
  }

  lemma ThreeIs(hits: seq<int>, w: int, limit: nat)
    ensures ThreeWindows(hits, w, limit) <==> ExceededFor(hits, w, limit, 3)
    ensures Exceeded(hits, w, limit) <==> ExceededFor(hits, w, limit, 1)
  {
    assert ExceededFor(hits, w - 1, limit, 2) <==> Exceeded(hits, w - 1, limit) && ExceededFor(hits, w - 2, limit, 1);
    assert ExceededFor(hits, w - 2, limit, 1) <==> Exceeded(hits, w - 2, limit);
  }

  /** How many windows in a row must be exceeded, the current one in any case. */
  function AbusiveRun(l: Limits): nat {
    if l.runLength <= 0 then 1 else l.runLength
  }

  /** In the current window at least, and in the whole run of windows: the run, or the window when the run is empty. */
  lemma AtLeastNow(hits: seq<int>, w: int, threshold: nat, n: nat)
    ensures Exceeded(hits, w, threshold) && ExceededFor(hits, w, threshold, n)
       <==> ExceededFor(hits, w, threshold, if n == 0 then 1 else n)
  {
  }

  /**
   What a check decides, by who called: it is refused exactly when for some scope more than `limit` checks of its rule
   in this window came from the same connection, address or known user; reported as persistent exactly when that was
   so in this window and both before; and as abusive exactly when the multiplied limit was exceeded in this window
   and the whole run of windows that ends with it.
   */
  lemma ChecksCountTheirSource(calls: seq<Call>, limitsOf: string -> Limits)
    requires calls != [] && Callable(calls) && InTime(calls) && FixedLimits(calls, limitsOf)
    requires calls[|calls| - 1].Check?
    ensures
      var c := calls[|calls| - 1];
      assert c in calls;
      var l, w := c.limits, Window(c.at, c.limits.windowMs);
      var decision := Run(EMPTY, calls, true).1[|calls| - 1];
      && (!decision.allowed <==> exists scope :: TooMany(calls, c, scope, w, l.limit, 1))
      && (decision.persistent <==> exists scope :: TooMany(calls, c, scope, w, l.limit, 3))
      && (decision.abusive <==>
            exists scope :: TooMany(calls, c, scope, w, Threshold(l), AbusiveRun(l)))
      && Threshold(l) == l.limit * l.multiplier
  {
    var c := calls[|calls| - 1];
    assert c in calls;
    var l, w := c.limits, Window(c.at, c.limits.windowMs);
    ProductNotNegative(l.limit, l.multiplier);
    DecisionMeans(calls, limitsOf);
    RunsOfWindows(calls, c, w, l);
    SomeScope(calls, c, w, l.limit, 1);
    SomeScope(calls, c, w, l.limit, 3);
    SomeScope(calls, c, w, Threshold(l), AbusiveRun(l));
  }

  /** The three ways in which a key can have exceeded its threshold, as runs of windows. */
  lemma RunsOfWindows(calls: seq<Call>, c: Call, w: int, l: Limits)
    requires Callable(calls) && l.limit >= 0 && l.runLength >= 0
    ensures (exists k :: k in Keys(c) && Exceeded(Hits(calls, k), w, l.limit))
       <==> (exists k :: k in Keys(c) && ExceededFor(Hits(calls, k), w, l.limit, 1))
    ensures (exists k :: k in Keys(c) && ThreeWindows(Hits(calls, k), w, l.limit))
       <==> (exists k :: k in Keys(c) && ExceededFor(Hits(calls, k), w, l.limit, 3))
    ensures
      (exists k :: k in Keys(c) && Exceeded(Hits(calls, k), w, Threshold(l))
                   && ExceededFor(Hits(calls, k), w, Threshold(l), l.runLength))
      <==> (exists k :: k in Keys(c) && ExceededFor(Hits(calls, k), w, Threshold(l), AbusiveRun(l)))
  {
    forall k ensures Exceeded(Hits(calls, k), w, l.limit) <==> ExceededFor(Hits(calls, k), w, l.limit, 1) {
      ThreeIs(Hits(calls, k), w, l.limit);
    }
    forall k ensures ThreeWindows(Hits(calls, k), w, l.limit) <==> ExceededFor(Hits(calls, k), w, l.limit, 3) {
      ThreeIs(Hits(calls, k), w, l.limit);
    }
    forall k
      ensures Exceeded(Hits(calls, k), w, Threshold(l)) && ExceededFor(Hits(calls, k), w, Threshold(l), l.runLength)
         <==> ExceededFor(Hits(calls, k), w, Threshold(l), AbusiveRun(l))
    {
      AtLeastNow(Hits(calls, k), w, Threshold(l), l.runLength);
    }
  }

  // ---------------------------------------------------------------------------------------------
  // Cooldowns

  /** An allowed cooldown call, the `i`-th, still runs at `now`. */
  predicate Runs(calls: seq<Call>, decisions: seq<Decision>, i: nat, now: int)
    requires i < |calls| && i < |decisions|
  {
    calls[i].Cooldown? && decisions[i].allowed && calls[i].at + calls[i].cooldownMs > now
  }

  function PermittedAt(cooldowns: map<Key, int>, k: Key): int {
    if k in cooldowns then cooldowns[k] else 0
  }

  /** A key is cooling at a time from now on exactly when an allowed cooldown call with that key still runs. */
  ghost predicate Tracks(cooldowns: map<Key, int>, calls: seq<Call>, decisions: seq<Decision>, from: int)
    requires |decisions| == |calls|
  {
    forall k, now :: now >= from && now >= 0 ==>
      (PermittedAt(cooldowns, k) > now <==> StillCools(calls, decisions, k, now))
  }

  ghost predicate StillCools(calls: seq<Call>, decisions: seq<Decision>, k: Key, now: int)
    requires |decisions| == |calls|
  {
    exists i :: 0 <= i < |calls| && Runs(calls, decisions, i, now) && k in Keys(calls[i])
  }

  lemma StillCoolsSnoc(calls: seq<Call>, decisions: seq<Decision>, c: Call, d: Decision, k: Key, now: int)
    requires |decisions| == |calls|
    ensures StillCools(calls + [c], decisions + [d], k, now)
       <==> StillCools(calls, decisions, k, now)
            || (c.Cooldown? && d.allowed && c.at + c.cooldownMs > now && k in Keys(c))
  {
    var more, ds := calls + [c], decisions + [d];
    if StillCools(calls, decisions, k, now) {
      var i :| 0 <= i < |calls| && Runs(calls, decisions, i, now) && k in Keys(calls[i]);
      assert Runs(more, ds, i, now) && k in Keys(more[i]);
    }
    if c.Cooldown? && d.allowed && c.at + c.cooldownMs > now && k in Keys(c) {
      assert Runs(more, ds, |calls|, now) && k in Keys(more[|calls|]);
    }
    if StillCools(more, ds, k, now) {
      var i :| 0 <= i < |more| && Runs(more, ds, i, now) && k in Keys(more[i]);
      assert i < |calls| ==> Runs(calls, decisions, i, now) && k in Keys(calls[i]);
    }
  }

  /** A sweep throws away what no longer cools. */
  lemma SweepTracks(st: State, calls: seq<Call>, decisions: seq<Decision>, from: int, at: int)
    requires |decisions| == |calls| && Tracks(st.cooldowns, calls, decisions, from) && from <= at && 0 <= at
    ensures Tracks(Swept(st, at).cooldowns, calls, decisions, at)
  {
    forall k, now | now >= at && now >= 0
      ensures PermittedAt(Swept(st, at).cooldowns, k) > now <==> StillCools(calls, decisions, k, now)
    {
      assert PermittedAt(st.cooldowns, k) > now <==> StillCools(calls, decisions, k, now);
    }
  }

  lemma CoolIs(cooldowns: map<Key, int>, keys: seq<Key>, now: int)
    ensures Cool(cooldowns, keys, now) <==> forall k :: k in keys ==> PermittedAt(cooldowns, k) <= now
  {
  }

  lemma ChilledAt(cooldowns: map<Key, int>, keys: seq<Key>, until: int, k: Key)
    ensures PermittedAt(Chilled(cooldowns, keys, until), k) == if k in keys then until else PermittedAt(cooldowns, k)
  {
    ChilledKeys(cooldowns, keys, until);
  }

  /** One key at one time: a cooldown call that is refused changes nothing, an allowed one decides its keys. */
  lemma KeyTracks(st: State, calls: seq<Call>, decisions: seq<Decision>, c: Call, k: Key, now: int)
    requires |decisions| == |calls| && c.Cooldown? && c.at <= now
    requires PermittedAt(st.cooldowns, k) > now <==> StillCools(calls, decisions, k, now)
    ensures
      var (after, d) := Answered(st, c);
      PermittedAt(after.cooldowns, k) > now <==> StillCools(calls + [c], decisions + [d], k, now)
  {
    var d := Decision(Cool(st.cooldowns, Keys(c), c.at), false, false);
    StillCoolsSnoc(calls, decisions, c, d, k, now);
    ChilledAt(st.cooldowns, Keys(c), c.at + c.cooldownMs, k);
    AnsweredCooldown(st, c);
    if d.allowed && k in Keys(c) {
      CoolIs(st.cooldowns, Keys(c), c.at);
    }
  }

  lemma AnsweredCooldown(st: State, c: Call)
    requires c.Cooldown?
    ensures
      var allowed := Cool(st.cooldowns, Keys(c), c.at);
      && Answered(st, c).1 == Decision(allowed, false, false)
      && Answered(st, c).0.cooldowns
         == if allowed then Chilled(st.cooldowns, Keys(c), c.at + c.cooldownMs) else st.cooldowns
  {
  }

  lemma CheckTracks(st: State, calls: seq<Call>, decisions: seq<Decision>, c: Call, k: Key, now: int)
    requires |decisions| == |calls| && c.Check? && WellTyped(c)
    requires PermittedAt(st.cooldowns, k) > now <==> StillCools(calls, decisions, k, now)
    ensures
      var (after, d) := Answered(st, c);
      PermittedAt(after.cooldowns, k) > now <==> StillCools(calls + [c], decisions + [d], k, now)
  {
    StillCoolsSnoc(calls, decisions, c, Answered(st, c).1, k, now);
    AnsweredCheck(st, c);
  }

  lemma CallTracks(st: State, calls: seq<Call>, decisions: seq<Decision>, c: Call)
    requires |decisions| == |calls| && Tracks(st.cooldowns, calls, decisions, c.at) && 0 <= c.at && WellTyped(c)
    ensures
      var (after, d) := Answered(st, c);
      Tracks(after.cooldowns, calls + [c], decisions + [d], c.at)
  {
    var (after, d) := Answered(st, c);
    forall k, now | now >= c.at && now >= 0
      ensures PermittedAt(after.cooldowns, k) > now <==> StillCools(calls + [c], decisions + [d], k, now)
    {
      if c.Check? {
        CheckTracks(st, calls, decisions, c, k, now);
      } else {
        KeyTracks(st, calls, decisions, c, k, now);
      }
    }
  }

  /** The clock starts at 0 or later. */
  ghost predicate ClockStarted(calls: seq<Call>) {
    forall c :: c in calls ==> c.at >= 0
  }

  lemma {:induction false} RunTracks(calls: seq<Call>, sweeps: bool, from: int)
    requires Callable(calls) && InTime(calls) && ClockStarted(calls) && 0 <= from
    requires calls != [] ==> calls[|calls| - 1].at <= from
    ensures
      var (st, decisions) := Run(EMPTY, calls, sweeps);
      Tracks(st.cooldowns, calls, decisions, from)
    decreases |calls|
  {
    if calls == [] {
      assert Run(EMPTY, calls, sweeps) == (EMPTY, []);
    } else {
      var c := calls[|calls| - 1];
      var st, decisions := ReadyTracks(calls, sweeps);
      CallTracks(st, calls[..|calls| - 1], decisions, c);
      LaterTracks(calls, Answered(st, c).0.cooldowns, decisions + [Answered(st, c).1], c.at, from);
    }
  }

  lemma LaterTracks(calls: seq<Call>, cooldowns: map<Key, int>, decisions: seq<Decision>, from: int, later: int)
    requires calls != [] && |decisions| == |calls| && from <= later
    requires Tracks(cooldowns, calls[..|calls| - 1] + [calls[|calls| - 1]], decisions, from)
    ensures Tracks(cooldowns, calls, decisions, later)
  {
    assert calls == calls[..|calls| - 1] + [calls[|calls| - 1]];
  }

  /** The state in which the last call of a run is answered, after its sweep. */
  lemma {:induction false} ReadyTracks(calls: seq<Call>, sweeps: bool) returns (st: State, decisions: seq<Decision>)
    requires calls != [] && Callable(calls) && InTime(calls) && ClockStarted(calls)
    ensures
      var n := |calls| - 1;
      var c := calls[n];
      assert c in calls;
      && 0 <= c.at && |decisions| == n && Tracks(st.cooldowns, calls[..n], decisions, c.at)
      && Run(EMPTY, calls, sweeps) == (Answered(st, c).0, decisions + [Answered(st, c).1])
    decreases |calls|, 0
  {
    var n := |calls| - 1;
    var front, c := calls[..n], calls[n];
    assert c in calls;
    RunTracks(front, sweeps, c.at);
    var before := Run(EMPTY, front, sweeps).0;
    decisions := Run(EMPTY, front, sweeps).1;
    SweepTracks(before, front, decisions, c.at, c.at);
    st := if sweeps then Swept(before, c.at) else before;
  }

  /**
   What a cooldown call decides, by who called, sweeping or not: it is refused exactly when an earlier allowed cooldown
   call of its rule, from the same connection, address or known user, is not over yet.
   */
  lemma CooldownsKeepApart(calls: seq<Call>, sweeps: bool)
    requires calls != [] && Callable(calls) && InTime(calls) && ClockStarted(calls)
    requires calls[|calls| - 1].Cooldown?
    ensures
      var n := |calls| - 1;
      var decisions := Run(EMPTY, calls, sweeps).1;
      !decisions[n].allowed
      <==> exists i, scope :: 0 <= i < n && Runs(calls, decisions, i, calls[n].at) && Shares(calls[i], calls[n], scope)
  {
    var n := |calls| - 1;
    var c := calls[n];
    var st, decisions := ReadyTracks(calls, sweeps);
    CoolIs(st.cooldowns, Keys(c), c.at);
    RefusedByShared(calls[..n], decisions, c);
    SameRuns(calls, decisions, Answered(st, c).1);
    assert forall k :: PermittedAt(st.cooldowns, k) > c.at <==> StillCools(calls[..n], decisions, k, c.at);
  }

  lemma SameRuns(calls: seq<Call>, decisions: seq<Decision>, d: Decision)
    requires calls != [] && |decisions| == |calls| - 1
    ensures
      var n, all := |calls| - 1, decisions + [d];
      var front, c := calls[..n], calls[n];
      (exists i, scope :: 0 <= i < n && Runs(front, decisions, i, c.at) && Shares(front[i], c, scope))
      <==> (exists i, scope :: 0 <= i < n && Runs(calls, all, i, c.at) && Shares(calls[i], c, scope))
  {
    var n := |calls| - 1;
    forall i | 0 <= i < n
      ensures calls[..n][i] == calls[i]
      ensures Runs(calls[..n], decisions, i, calls[n].at) <==> Runs(calls, decisions + [d], i, calls[n].at)
    {
    }
  }

  lemma RefusedByShared(calls: seq<Call>, decisions: seq<Decision>, c: Call)
    requires |decisions| == |calls|
    ensures (exists k :: k in Keys(c) && StillCools(calls, decisions, k, c.at))
       <==> exists i, scope :: 0 <= i < |calls| && Runs(calls, decisions, i, c.at) && Shares(calls[i], c, scope)
  {
    if k :| k in Keys(c) && StillCools(calls, decisions, k, c.at) {
      var i :| 0 <= i < |calls| && Runs(calls, decisions, i, c.at) && k in Keys(calls[i]);
      SharedKey(calls[i], c, k);
    }
    if i, scope :| 0 <= i < |calls| && Runs(calls, decisions, i, c.at) && Shares(calls[i], c, scope) {
      OwnKey(c, scope);
      var k := KeyOf(c, scope).value;
      SharedKey(calls[i], c, k);
      assert StillCools(calls, decisions, k, c.at);
    }
  }
}
