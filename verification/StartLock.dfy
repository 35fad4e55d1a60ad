/**
 The start lock of server-game/src/rooms/lobby-state.ts: each join delays the start of a match, within a
 budget per rolling window.
 */
module StartLock {
  datatype Rules = Rules(joinLockMs: nat, joinBudgetMs: nat, joinBudgetWindowMs: nat, mapLockMs: nat)

  datatype Grant = Grant(at: int, durationMs: nat)

  datatype Lock = Lock(joinGrants: seq<Grant>, unlocksAt: int)

  const OPEN := Lock([], 0)

  function Min(a: int, b: int): int { if a <= b then a else b }

  function Max(a: int, b: int): int { if a >= b then a else b }

  function Sum(grants: seq<Grant>): nat
    decreases |grants|
  {
    if grants == [] then 0 else Sum(grants[..|grants| - 1]) + grants[|grants| - 1].durationMs
  }

  function Pruned(rules: Rules, grants: seq<Grant>, now: int): seq<Grant>
    decreases |grants|
  {
    if grants != [] && now - grants[0].at >= rules.joinBudgetWindowMs then Pruned(rules, grants[1..], now) else grants
  }

  function GrantFor(rules: Rules, l: Lock, now: int): nat {
    Min(rules.joinLockMs, Max(0, rules.joinBudgetMs - Sum(Pruned(rules, l.joinGrants, now))))
  }

  function Joined(rules: Rules, l: Lock, now: int): Lock {
    var kept := Pruned(rules, l.joinGrants, now);
    var grant := GrantFor(rules, l, now);
    if grant > 0 then Lock(kept + [Grant(now, grant)], Max(l.unlocksAt, now + grant)) else Lock(kept, l.unlocksAt)
  }

  class StartLock {
    const rules: Rules
    var joinGrants: seq<Grant>
    var unlocksAt: int

    constructor (rules: Rules)
      ensures this.rules == rules && Model() == OPEN
    {
      this.rules := rules;
      joinGrants, unlocksAt := [], 0;
    }

    function Model(): Lock
      reads this
    {
      Lock(joinGrants, unlocksAt)
    }

    method ApplyJoin(now: int) returns (grant: nat)
      modifies this
      ensures grant == GrantFor(rules, old(Model()), now)
      ensures Model() == Joined(rules, old(Model()), now)
    {
      Prune(now);
      var used := 0;
      var i := 0;
      while i < |joinGrants|
        invariant i <= |joinGrants|
        invariant used == Sum(joinGrants[..i])
      {
        assert joinGrants[..i + 1][..i] == joinGrants[..i];
        used := used + joinGrants[i].durationMs;
        i := i + 1;
      }
      assert joinGrants[..i] == joinGrants;
      grant := Min(rules.joinLockMs, Max(0, rules.joinBudgetMs - used));
      if grant > 0 {
        joinGrants := joinGrants + [Grant(now, grant)];
        unlocksAt := Max(unlocksAt, now + grant);
      }
    }

    method ApplyMapChange(now: int)
      modifies this`unlocksAt
      ensures Model() == old(Model()).(unlocksAt := Max(old(unlocksAt), now + rules.mapLockMs))
    {
      unlocksAt := Max(unlocksAt, now + rules.mapLockMs);
    }

    /** How long until the lock opens. */
    function RemainingMs(now: int): (r: nat)
      reads this
      ensures if unlocksAt <= now then r == 0 else now + r == unlocksAt
    {
      Max(0, unlocksAt - now)
    }

    method Prune(now: int)
      modifies this`joinGrants
      ensures joinGrants == Pruned(rules, old(joinGrants), now)
    {
      while |joinGrants| > 0 && now - joinGrants[0].at >= rules.joinBudgetWindowMs
        invariant Pruned(rules, joinGrants, now) == Pruned(rules, old(joinGrants), now)
        decreases |joinGrants|
      {
        joinGrants := joinGrants[1..];
      }
    }
  }

  // ---------------------------------------------------------------------------------------------
  // Runs of joins

  /** Join times: the clock starts at 0 or later and does not go back. */
  ghost predicate Clock(times: seq<int>) {
    (forall i :: 0 <= i < |times| ==> 0 <= times[i])
    && forall i, j :: 0 <= i < j < |times| ==> times[i] <= times[j]
  }

  function After(rules: Rules, times: seq<int>): Lock
    decreases |times|
  {
    if times == [] then OPEN else Joined(rules, After(rules, times[..|times| - 1]), times[|times| - 1])
  }

  /** Every grant ever issued, pruned or not. */
  function Issued(rules: Rules, times: seq<int>): seq<Grant>
    decreases |times|
  {
    if times == [] then []
    else
      var front := times[..|times| - 1];
      var now := times[|times| - 1];
      var grant := GrantFor(rules, After(rules, front), now);
      Issued(rules, front) + if grant > 0 then [Grant(now, grant)] else []
  }

  /** The milliseconds granted in the window that ends at `end`. */
  function InWindow(rules: Rules, issued: seq<Grant>, end: int): nat
    decreases |issued|
  {
    if issued == [] then 0
    else
      var g := issued[|issued| - 1];
      InWindow(rules, issued[..|issued| - 1], end)
      + if end - rules.joinBudgetWindowMs < g.at <= end then g.durationMs else 0
  }

  ghost predicate Ordered(issued: seq<Grant>, last: int) {
    && (forall i :: 0 <= i < |issued| ==> issued[i].durationMs > 0 && 0 <= issued[i].at <= last)
    && forall i, j :: 0 <= i < j < |issued| ==> issued[i].at <= issued[j].at
  }

  /** The lock remembers the issued grants except some that have left the window for good. */
  ghost predicate Remembers(rules: Rules, l: Lock, issued: seq<Grant>, last: int) {
    && |l.joinGrants| <= |issued|
    && l.joinGrants == issued[|issued| - |l.joinGrants|..]
    && forall i :: 0 <= i < |issued| - |l.joinGrants| ==> last - issued[i].at >= rules.joinBudgetWindowMs
  }

  lemma {:induction false} PruneRemembers(rules: Rules, l: Lock, issued: seq<Grant>, last: int, now: int)
    requires Ordered(issued, last) && Remembers(rules, l, issued, last) && last <= now
    ensures
      var kept := Pruned(rules, l.joinGrants, now);
      && Remembers(rules, Lock(kept, l.unlocksAt), issued, now)
      && forall i :: 0 <= i < |kept| ==> now - kept[i].at < rules.joinBudgetWindowMs
    decreases |l.joinGrants|
  {
    if l.joinGrants != [] && now - l.joinGrants[0].at >= rules.joinBudgetWindowMs {
      PruneRemembers(rules, Lock(l.joinGrants[1..], l.unlocksAt), issued, now, now);
    }
  }

  /** With the first `k` grants outside the window and the others inside, the window holds the others' sum. */
  lemma {:induction false} WindowIsTail(rules: Rules, issued: seq<Grant>, k: nat, end: int)
    requires k <= |issued|
    requires forall i :: 0 <= i < k ==> issued[i].at <= end - rules.joinBudgetWindowMs
    requires forall i :: k <= i < |issued| ==> end - rules.joinBudgetWindowMs < issued[i].at <= end
    ensures InWindow(rules, issued, end) == Sum(issued[k..])
    decreases |issued|
  {
    if issued != [] {
      var n := |issued| - 1;
      if k <= n {
        WindowIsTail(rules, issued[..n], k, end);
        assert issued[k..][..n - k] == issued[..n][k..];
      } else {
        WindowIsTail(rules, issued[..n], n, end);
        assert issued[..n][n..] == [] && issued[k..] == [];
      }
    }
  }

  /** Grants that are the last ones of the history and lie in the window sum to what the window holds. */
  lemma KeptIsWindow(rules: Rules, issued: seq<Grant>, kept: seq<Grant>, now: int)
    requires |kept| <= |issued| && kept == issued[|issued| - |kept|..]
    requires forall i :: 0 <= i < |issued| - |kept| ==> issued[i].at <= now - rules.joinBudgetWindowMs
    requires forall i :: 0 <= i < |kept| ==> now - rules.joinBudgetWindowMs < kept[i].at <= now
    ensures Sum(kept) == InWindow(rules, issued, now)
  {
    var k := |issued| - |kept|;
    forall i | k <= i < |issued| ensures now - rules.joinBudgetWindowMs < issued[i].at <= now {
      assert issued[i] == kept[i - k];
    }
    WindowIsTail(rules, issued, k, now);
  }

  lemma Used(rules: Rules, l: Lock, issued: seq<Grant>, last: int, now: int)
    requires Ordered(issued, last) && Remembers(rules, l, issued, last) && last <= now
    ensures Sum(Pruned(rules, l.joinGrants, now)) == InWindow(rules, issued, now)
  {
    PruneRemembers(rules, l, issued, last, now);
    KeptIsWindow(rules, issued, Pruned(rules, l.joinGrants, now), now);
  }

  /** A window that ends later sees no more of the past. */
  lemma {:induction false} WindowShrinks(rules: Rules, issued: seq<Grant>, now: int, end: int)
    requires now <= end && forall i :: 0 <= i < |issued| ==> issued[i].at <= now
    ensures InWindow(rules, issued, end) <= InWindow(rules, issued, now)
    decreases |issued|
  {
    if issued != [] {
      WindowShrinks(rules, issued[..|issued| - 1], now, end);
    }
  }

  ghost predicate Budgeted(rules: Rules, issued: seq<Grant>) {
    forall end :: InWindow(rules, issued, end) <= rules.joinBudgetMs
  }

  lemma GrantBudgeted(rules: Rules, issued: seq<Grant>, now: int, grant: nat)
    requires Ordered(issued, now) && Budgeted(rules, issued)
    requires InWindow(rules, issued, now) + grant <= rules.joinBudgetMs
    ensures Budgeted(rules, issued + [Grant(now, grant)])
  {
    var after := issued + [Grant(now, grant)];
    assert after[..|issued|] == issued;
    forall end ensures InWindow(rules, after, end) <= rules.joinBudgetMs {
      assert InWindow(rules, issued, end) <= rules.joinBudgetMs;
      if now <= end {
        WindowShrinks(rules, issued, now, end);
      }
    }
  }

  function Last(times: seq<int>): int {
    if times == [] then 0 else times[|times| - 1]
  }

  /** What holds between a lock and everything it issued. */
  ghost predicate Sound(rules: Rules, l: Lock, issued: seq<Grant>, last: int) {
    Ordered(issued, last) && Remembers(rules, l, issued, last) && Budgeted(rules, issued)
  }

  lemma JoinRemembers(rules: Rules, l: Lock, issued: seq<Grant>, last: int, now: int)
    requires Ordered(issued, last) && Remembers(rules, l, issued, last) && last <= now
    ensures
      var grant := GrantFor(rules, l, now);
      Remembers(rules, Joined(rules, l, now), issued + if grant > 0 then [Grant(now, grant)] else [], now)
  {
    PruneRemembers(rules, l, issued, last, now);
    var kept := Pruned(rules, l.joinGrants, now);
    var grant := GrantFor(rules, l, now);
    if grant > 0 {
      assert kept + [Grant(now, grant)] == (issued + [Grant(now, grant)])[|issued| - |kept|..];
    } else {
      assert issued + [] == issued;
    }
  }

  lemma JoinBudgeted(rules: Rules, l: Lock, issued: seq<Grant>, last: int, now: int)
    requires Sound(rules, l, issued, last) && last <= now
    ensures
      var grant := GrantFor(rules, l, now);
      Budgeted(rules, issued + if grant > 0 then [Grant(now, grant)] else [])
  {
    Used(rules, l, issued, last, now);
    assert InWindow(rules, issued, now) <= rules.joinBudgetMs;
    var grant := GrantFor(rules, l, now);
    if grant > 0 {
      GrantBudgeted(rules, issued, now, grant);
    } else {
      assert issued + [] == issued;
    }
  }

  lemma OrderedSnoc(issued: seq<Grant>, last: int, now: int, grant: nat)
    requires Ordered(issued, last) && 0 <= now && last <= now
    ensures Ordered(issued, now) && (grant > 0 ==> Ordered(issued + [Grant(now, grant)], now))
  {
  }

  lemma JoinSound(rules: Rules, l: Lock, issued: seq<Grant>, last: int, now: int)
    requires Sound(rules, l, issued, last) && 0 <= now && last <= now
    ensures
      var grant := GrantFor(rules, l, now);
      Sound(rules, Joined(rules, l, now), issued + if grant > 0 then [Grant(now, grant)] else [], now)
  {
    var grant := GrantFor(rules, l, now);
    OrderedSnoc(issued, last, now, grant);
    assert grant == 0 ==> issued + [] == issued;
    JoinRemembers(rules, l, issued, last, now);
    JoinBudgeted(rules, l, issued, last, now);
  }

  lemma {:induction false} RunOfJoins(rules: Rules, times: seq<int>)
    requires Clock(times)
    ensures Sound(rules, After(rules, times), Issued(rules, times), Last(times)) && 0 <= Last(times)
    decreases |times|
  {
    if times != [] {
      var front, now := times[..|times| - 1], times[|times| - 1];
      RunOfJoins(rules, front);
      JoinSound(rules, After(rules, front), Issued(rules, front), Last(front), now);
    }
  }

  /** The grants of every run of joins sum to at most the budget within any rolling window. */
  lemma GrantsAreBudgeted(rules: Rules, times: seq<int>, end: int)
    requires Clock(times)
    ensures InWindow(rules, Issued(rules, times), end) <= rules.joinBudgetMs
  {
    RunOfJoins(rules, times);
  }

  // ---------------------------------------------------------------------------------------------
  // How long joins alone keep the start locked

  predicate Locked(issued: seq<Grant>, t: int) {
    exists i :: 0 <= i < |issued| && Covers(issued[i], t)
  }

  ghost predicate LockedThroughout(issued: seq<Grant>, from: int, to: int) {
    forall t :: from <= t < to ==> Locked(issued, t)
  }

  function End(issued: seq<Grant>): int
    decreases |issued|
  {
    if issued == [] then 0
    else Max(End(issued[..|issued| - 1]), issued[|issued| - 1].at + issued[|issued| - 1].durationMs)
  }

  lemma {:induction false} EndIsLast(issued: seq<Grant>, last: int)
    requires Ordered(issued, last)
    ensures forall i :: 0 <= i < |issued| ==> issued[i].at + issued[i].durationMs <= End(issued)
    ensures issued != [] ==> exists i :: 0 <= i < |issued| && issued[i].at + issued[i].durationMs == End(issued)
    decreases |issued|
  {
    if issued != [] {
      var n := |issued| - 1;
      EndIsLast(issued[..n], last);
      if End(issued) == issued[n].at + issued[n].durationMs {
      } else {
        var i :| 0 <= i < n && issued[..n][i].at + issued[..n][i].durationMs == End(issued[..n]);
        assert issued[i] == issued[..n][i];
      }
    }
  }

  lemma {:induction false} UnlocksAtEnd(rules: Rules, times: seq<int>)
    ensures After(rules, times).unlocksAt == End(Issued(rules, times))
    decreases |times|
  {
    if times != [] {
      var front := times[..|times| - 1];
      UnlocksAtEnd(rules, front);
      var issued := Issued(rules, times);
      assert issued != Issued(rules, front) ==> issued[..|issued| - 1] == Issued(rules, front);
    }
  }

  /** The lock shows as locked, at any time since the last join, exactly when some grant covers that time. */
  lemma LockedMeans(rules: Rules, times: seq<int>, t: int)
    requires Clock(times) && Last(times) <= t
    ensures After(rules, times).unlocksAt > t <==> Locked(Issued(rules, times), t)
  {
    RunOfJoins(rules, times);
    UnlocksAtEnd(rules, times);
    EndIsLast(Issued(rules, times), Last(times));
  }

  /** When the lock that ends last began, with every grant that came no later than the end of those before it. */
  function LockStart(issued: seq<Grant>): int
    requires issued != []
    decreases |issued|
  {
    var n := |issued| - 1;
    if n > 0 && End(issued[..n]) >= issued[n].at then LockStart(issued[..n]) else issued[n].at
  }

  predicate Covers(g: Grant, t: int) {
    g.at <= t < g.at + g.durationMs
  }

  lemma LockedSnoc(issued: seq<Grant>, g: Grant, t: int)
    ensures Locked(issued + [g], t) <==> Locked(issued, t) || Covers(g, t)
  {
    var after := issued + [g];
    if Locked(issued, t) {
      var i :| 0 <= i < |issued| && Covers(issued[i], t);
      assert Covers(after[i], t);
    }
    if Covers(g, t) {
      assert Covers(after[|issued|], t);
    }
  }

  /** After everything ended, nothing is locked. */
  lemma FreeAfter(issued: seq<Grant>, last: int, t: int)
    requires Ordered(issued, last) && End(issued) <= t
    ensures !Locked(issued, t)
  {
    EndIsLast(issued, last);
  }

  lemma OrderedFront(issued: seq<Grant>, last: int)
    requires issued != [] && Ordered(issued, last)
    ensures Ordered(issued[..|issued| - 1], last)
  {
  }

  /** Just before it began, nothing was locked. */
  lemma {:induction false} FreeBefore(issued: seq<Grant>, last: int)
    requires issued != [] && Ordered(issued, last)
    ensures LockStart(issued) <= issued[|issued| - 1].at && !Locked(issued, LockStart(issued) - 1)
    decreases |issued|
  {
    var n := |issued| - 1;
    var front, t := issued[..n], LockStart(issued) - 1;
    OrderedFront(issued, last);
    if n > 0 && End(front) >= issued[n].at {
      FreeBefore(front, last);
      assert front[n - 1] == issued[n - 1];
    } else if n > 0 {
      FreeAfter(front, last, t);
    }
    assert !Covers(issued[n], t);
    LockedSnoc(front, issued[n], t);
    assert issued == front + [issued[n]];
  }

  /** All grants from a time on, within one window of the last, are in that window. */
  lemma {:induction false} SinceInWindow(rules: Rules, issued: seq<Grant>, from: int, end: int)
    requires end - rules.joinBudgetWindowMs < from && Ordered(issued, end)
    ensures Since(issued, from) <= InWindow(rules, issued, end)
    decreases |issued|
  {
    if issued != [] {
      SinceInWindow(rules, issued[..|issued| - 1], from, end);
    }
  }

  function Since(issued: seq<Grant>, from: int): nat
    decreases |issued|
  {
    if issued == [] then 0
    else
      var last := issued[|issued| - 1];
      Since(issued[..|issued| - 1], from) + if last.at >= from then last.durationMs else 0
  }

  lemma {:induction false} NothingSince(issued: seq<Grant>, from: int)
    requires forall i :: 0 <= i < |issued| ==> issued[i].at < from
    ensures Since(issued, from) == 0
    decreases |issued|
  {
    if issued != [] {
      NothingSince(issued[..|issued| - 1], from);
    }
  }

  /** One continuous lock lasts no longer than its grants together. */
  lemma {:induction false} LockIsItsGrants(issued: seq<Grant>, last: int)
    requires issued != [] && Ordered(issued, last)
    ensures End(issued) <= LockStart(issued) + Since(issued, LockStart(issued))
    decreases |issued|
  {
    var n := |issued| - 1;
    if n > 0 && End(issued[..n]) >= issued[n].at {
      LockIsItsGrants(issued[..n], last);
      FreeBefore(issued[..n], last);
    }
  }

  /** Below the window's length the budget bounds the lock that ends last. */
  lemma {:induction false} LockIsShort(rules: Rules, issued: seq<Grant>, last: int)
    requires issued != [] && Ordered(issued, last) && Prefixed(rules, issued)
    requires rules.joinBudgetMs < rules.joinBudgetWindowMs
    ensures End(issued) <= LockStart(issued) + rules.joinBudgetMs
    decreases |issued|
  {
    var n := |issued| - 1;
    LockIsItsGrants(issued, last);
    if n > 0 && End(issued[..n]) >= issued[n].at {
      assert forall k :: 0 <= k <= n ==> issued[..n][..k] == issued[..k];
      LockIsShort(rules, issued[..n], last);
    }
    assert Ordered(issued, issued[n].at);
    SinceInWindow(rules, issued, LockStart(issued), issued[n].at);
    assert Budgeted(rules, issued[..n + 1]) && issued[..n + 1] == issued;
  }

  /** Every prefix of the history was within budget. */
  ghost predicate Prefixed(rules: Rules, issued: seq<Grant>) {
    forall k :: 0 <= k <= |issued| ==> Budgeted(rules, issued[..k])
  }

  lemma {:induction false} BudgetedPrefixes(rules: Rules, issued: seq<Grant>)
    requires Budgeted(rules, issued)
    ensures Prefixed(rules, issued)
    decreases |issued|
  {
    if issued != [] {
      var n := |issued| - 1;
      forall end ensures InWindow(rules, issued[..n], end) <= rules.joinBudgetMs {
        assert InWindow(rules, issued, end) <= rules.joinBudgetMs;
      }
      BudgetedPrefixes(rules, issued[..n]);
      forall k | 0 <= k <= |issued| ensures Budgeted(rules, issued[..k]) {
        if k < |issued| {
          assert issued[..n][..k] == issued[..k];
        } else {
          assert issued[..k] == issued;
        }
      }
    }
  }

  lemma {:induction false} ContinuousLockIsShort(rules: Rules, issued: seq<Grant>, last: int, from: int, to: int)
    requires Ordered(issued, last) && Prefixed(rules, issued) && rules.joinBudgetMs < rules.joinBudgetWindowMs
    requires from < to && LockedThroughout(issued, from, to)
    ensures to - from <= rules.joinBudgetMs
    decreases |issued|
  {
    assert Locked(issued, from) && Locked(issued, to - 1);
    var n := |issued| - 1;
    if to <= issued[n].at {
      var front := issued[..n];
      forall t | from <= t < to ensures Locked(front, t) {
        assert Locked(issued, t);
        var i :| 0 <= i < |issued| && Covers(issued[i], t);
        assert front[i] == issued[i];
      }
      assert forall k :: 0 <= k <= n ==> front[..k] == issued[..k];
      ContinuousLockIsShort(rules, front, last, from, to);
    } else {
      LockIsShort(rules, issued, last);
      FreeBefore(issued, last);
      EndIsLast(issued, last);
    }
  }

  /**
   Joins alone never keep the start locked without a break for longer than the budget, however people join and
   leave, when the budget is smaller than the window.
   */
  lemma JoinsCannotStall(rules: Rules, times: seq<int>, from: int, to: int)
    requires Clock(times) && rules.joinBudgetMs < rules.joinBudgetWindowMs
    requires from < to && LockedThroughout(Issued(rules, times), from, to)
    ensures to - from <= rules.joinBudgetMs
  {
    RunOfJoins(rules, times);
    BudgetedPrefixes(rules, Issued(rules, times));
    ContinuousLockIsShort(rules, Issued(rules, times), Last(times), from, to);
  }

  // ---------------------------------------------------------------------------------------------
  // And when the budget is not smaller than the window

  /** Somebody joins whenever the lock opens. */
  function Relentless(rules: Rules, n: nat): seq<int> {
    if n == 0 then []
    else
      var before := Relentless(rules, n - 1);
      before + [After(rules, before).unlocksAt]
  }

  /** Joins are granted time at all, and the budget is as long as the window. */
  predicate Endless(rules: Rules) {
    0 < rules.joinLockMs && 0 < rules.joinBudgetMs && rules.joinBudgetWindowMs <= rules.joinBudgetMs
  }

  /** Grants laid end to end from time 0. */
  ghost predicate BackToBack(issued: seq<Grant>) {
    && (forall i :: 0 <= i < |issued| ==> issued[i].durationMs > 0)
    && (issued != [] ==> issued[0].at == 0)
    && forall i, j :: 0 <= i && i + 1 == j < |issued| ==> issued[j].at == issued[i].at + issued[i].durationMs
  }

  /** What lies in a window cannot be longer than what was granted after it began. */
  lemma {:induction false} BackToBackWindow(rules: Rules, issued: seq<Grant>, later: int)
    requires BackToBack(issued)
    ensures issued != [] ==> End(issued) == issued[|issued| - 1].at + issued[|issued| - 1].durationMs
    ensures End(issued) >= |issued|
    ensures InWindow(rules, issued, later) <= Max(0, End(issued) - (later - rules.joinBudgetWindowMs + 1))
    decreases |issued|
  {
    if issued != [] {
      var n := |issued| - 1;
      var front := issued[..n];
      BackToBackWindow(rules, front, later);
      assert n > 0 ==> front[n - 1] == issued[n - 1];
    }
  }

  lemma {:induction false} BackToBackCovers(issued: seq<Grant>, t: int)
    requires BackToBack(issued) && 0 <= t < End(issued)
    ensures Locked(issued, t)
    decreases |issued|
  {
    if issued != [] {
      var n := |issued| - 1;
      var front := issued[..n];
      BackToBackWindow(Rules(0, 0, 0, 0), issued, 0);
      BackToBackWindow(Rules(0, 0, 0, 0), front, 0);
      if t < End(front) {
        BackToBackCovers(front, t);
        var i :| 0 <= i < |front| && Covers(front[i], t);
        assert issued[i] == front[i];
      } else {
        assert Covers(issued[n], t);
      }
    }
  }

  lemma BackToBackSnoc(issued: seq<Grant>, grant: nat)
    requires BackToBack(issued) && grant > 0
    ensures BackToBack(issued + [Grant(End(issued), grant)])
  {
    BackToBackWindow(Rules(0, 0, 0, 0), issued, 0);
  }

  /** A join just as the lock opens is granted time, which continues the lock. */
  lemma GrantContinues(rules: Rules, l: Lock, issued: seq<Grant>, last: int)
    requires Endless(rules)
    requires Sound(rules, l, issued, last) && BackToBack(issued) && l.unlocksAt == End(issued) && last <= l.unlocksAt
    ensures
      var grant := GrantFor(rules, l, l.unlocksAt);
      grant > 0 && BackToBack(issued + [Grant(l.unlocksAt, grant)])
  {
    Used(rules, l, issued, last, l.unlocksAt);
    BackToBackWindow(rules, issued, l.unlocksAt);
    BackToBackSnoc(issued, GrantFor(rules, l, l.unlocksAt));
  }

  lemma JoinSnoc(rules: Rules, times: seq<int>, now: int)
    ensures After(rules, times + [now]) == Joined(rules, After(rules, times), now)
    ensures
      var grant := GrantFor(rules, After(rules, times), now);
      Issued(rules, times + [now]) == Issued(rules, times) + if grant > 0 then [Grant(now, grant)] else []
  {
    assert (times + [now])[..|times|] == times;
  }

  lemma ClockSnoc(times: seq<int>, now: int)
    requires Clock(times) && 0 <= now && Last(times) <= now
    ensures Clock(times + [now])
  {
  }

  /** A run of `n` joins, each granted time, that laid the grants end to end. */
  ghost predicate Steady(rules: Rules, times: seq<int>, n: nat) {
    && Clock(times) && BackToBack(Issued(rules, times)) && |Issued(rules, times)| == n
    && Last(times) <= After(rules, times).unlocksAt
  }

  lemma SteadyStep(rules: Rules, times: seq<int>, n: nat)
    requires Endless(rules)
    requires Steady(rules, times, n)
    ensures Steady(rules, times + [After(rules, times).unlocksAt], n + 1)
  {
    var l, issued := After(rules, times), Issued(rules, times);
    RunOfJoins(rules, times);
    UnlocksAtEnd(rules, times);
    GrantContinues(rules, l, issued, Last(times));
    JoinSnoc(rules, times, l.unlocksAt);
    ClockSnoc(times, l.unlocksAt);
  }

  lemma {:induction false} RelentlessRun(rules: Rules, n: nat)
    requires Endless(rules)
    ensures Steady(rules, Relentless(rules, n), n)
  {
    if n == 0 {
      NobodySteady(rules);
    } else {
      RelentlessRun(rules, n - 1);
      RelentlessStep(rules, n - 1);
    }
  }

  lemma NobodySteady(rules: Rules)
    ensures Steady(rules, Relentless(rules, 0), 0)
  {
  }

  lemma RelentlessStep(rules: Rules, n: nat)
    requires Endless(rules) && Steady(rules, Relentless(rules, n), n)
    ensures Steady(rules, Relentless(rules, n + 1), n + 1)
  {
    SteadyStep(rules, Relentless(rules, n), n);
  }

  /** With a budget as long as the window, relentless joining keeps the start locked for as long as one likes. */
  lemma JoinsCanStall(rules: Rules, n: nat)
    requires Endless(rules)
    ensures Clock(Relentless(rules, n)) && LockedThroughout(Issued(rules, Relentless(rules, n)), 0, n)
  {
    RelentlessRun(rules, n);
    var issued := Issued(rules, Relentless(rules, n));
    BackToBackWindow(rules, issued, 0);
    forall t | 0 <= t < n ensures Locked(issued, t) {
      BackToBackCovers(issued, t);
    }
  }

  /** No run of joins locks the start without a break for longer than the budget. */
  ghost predicate CannotStall(rules: Rules) {
    forall times: seq<int>, from: int, to: int :: Clock(times) && from < to
        && LockedThroughout(Issued(rules, times), from, to)
      ==> to - from <= rules.joinBudgetMs
  }

  /** Without a join lock or without a budget nothing is ever granted. */
  lemma {:induction false} NothingIssued(rules: Rules, times: seq<int>)
    requires rules.joinLockMs == 0 || rules.joinBudgetMs == 0
    ensures Issued(rules, times) == []
    decreases |times|
  {
    if times != [] {
      NothingIssued(rules, times[..|times| - 1]);
    }
  }

  /**
   The budget bounds the lock if and only if it is smaller than the window, or there is no budget or no join lock
   at all.
   */
  lemma StallExactly(rules: Rules)
    ensures CannotStall(rules)
       <==> rules.joinBudgetMs < rules.joinBudgetWindowMs || rules.joinBudgetMs == 0 || rules.joinLockMs == 0
  {
    if rules.joinBudgetMs == 0 || rules.joinLockMs == 0 {
      forall times: seq<int>, from: int, to: int | from < to ensures !LockedThroughout(Issued(rules, times), from, to) {
        NothingIssued(rules, times);
        assert !Locked([], from);
      }
    } else if rules.joinBudgetMs < rules.joinBudgetWindowMs {
      forall times: seq<int>, from: int, to: int | Clock(times) && from < to
          && LockedThroughout(Issued(rules, times), from, to)
        ensures to - from <= rules.joinBudgetMs
      {
        JoinsCannotStall(rules, times, from, to);
      }
    } else {
      JoinsCanStall(rules, rules.joinBudgetMs + 1);
    }
  }

  // ---------------------------------------------------------------------------------------------
  // How much a join is granted

  /**
   A join is granted its whole lock unless less is left of the budget in the window, and then what is left; the start is
   shut from then on for that long at least, and for as long as it was.
   */
  lemma JoinsAreGranted(rules: Rules, times: seq<int>, now: int, grant: nat)
    requires Clock(times) && 0 <= now && Last(times) <= now
    requires grant == Min(rules.joinLockMs, Max(0, rules.joinBudgetMs - InWindow(rules, Issued(rules, times), now)))
    ensures InWindow(rules, Issued(rules, times), now) <= rules.joinBudgetMs
    ensures Issued(rules, times + [now]) == Issued(rules, times) + (if grant > 0 then [Grant(now, grant)] else [])
    ensures
      After(rules, times + [now]).unlocksAt
      == if grant > 0 then Max(After(rules, times).unlocksAt, now + grant) else After(rules, times).unlocksAt
  {
    var l := After(rules, times);
    assert grant == GrantFor(rules, l, now) && InWindow(rules, Issued(rules, times), now) <= rules.joinBudgetMs by {
      GrantIsLeft(rules, times, now);
    }
    JoinSnoc(rules, times, now);
    JoinedIs(rules, l, now);
  }

  lemma GrantIsLeft(rules: Rules, times: seq<int>, now: int)
    requires Clock(times) && Last(times) <= now
    ensures
      var left := rules.joinBudgetMs - InWindow(rules, Issued(rules, times), now);
      left >= 0 && GrantFor(rules, After(rules, times), now) == Min(rules.joinLockMs, left)
  {
    RunOfJoins(rules, times);
    Used(rules, After(rules, times), Issued(rules, times), Last(times), now);
    GrantsAreBudgeted(rules, times, now);
  }

  lemma JoinedIs(rules: Rules, l: Lock, now: int)
    ensures
      var grant := GrantFor(rules, l, now);
      Joined(rules, l, now).unlocksAt == if grant > 0 then Max(l.unlocksAt, now + grant) else l.unlocksAt
  {
  }
}
