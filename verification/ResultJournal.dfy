/**
 The shared result journal of server-game/src/redis/result-journal.ts: one file per match, published by link,
 removed by acknowledgement, read in batches from a cursor.
 */
module ResultJournal {
  import opened Wrappers

  /** The file name of a match, ordered as names are. */
  type Name = nat

  datatype Result = Result(matchId: Name, body: nat, oversized: bool)

  type Files = map<Name, Result>

  /** How one publication ends: failing early, failing after the link, or not at all. */
  datatype Disk = Works | FailsBefore | FailsAfter

  /** The directory afterwards and whether `append` returned. An existing entry is compared, never replaced. */
  function Appended(files: Files, r: Result, disk: Disk): (Files, bool) {
    if r.oversized || disk == FailsBefore then (files, false)
    else if r.matchId in files then (files, files[r.matchId] == r && disk == Works)
    else (files[r.matchId := r], disk == Works)
  }

  function Acknowledged(files: Files, name: Name, disk: Disk): (Files, bool) {
    if disk == FailsBefore then (files, false) else (files - {name}, disk == Works)
  }

  /** An entry once published stays as it is, whatever is appended later. */
  lemma AppendNeverReplaces(files: Files, r: Result, disk: Disk)
    ensures forall n :: n in files ==> n in Appended(files, r, disk).0 && Appended(files, r, disk).0[n] == files[n]
  {
  }

  /** Retrying after a failure that came too late is harmless: it returns and changes nothing. */
  lemma RetryIsHarmless(files: Files, r: Result, disk: Disk)
    requires Appended(files, r, disk).0 != files || Appended(files, r, disk).1
    ensures Appended(Appended(files, r, disk).0, r, Works) == (Appended(files, r, disk).0, true)
  {
  }

  // ---------------------------------------------------------------------------------------------
  // Reading

  ghost predicate Ascending(names: seq<Name>) {
    forall i, j :: 0 <= i < j < |names| ==> names[i] < names[j]
  }

  /** The sorted directory listing. */
  ghost predicate Lists(names: seq<Name>, files: set<Name>) {
    Ascending(names) && forall n :: n in names <==> n in files
  }

  function Inserted(names: seq<Name>, n: Name): seq<Name>
    decreases |names|
  {
    if names == [] || names[|names| - 1] < n then names + [n]
    else Inserted(names[..|names| - 1], n) + [names[|names| - 1]]
  }

  lemma {:induction false} InsertMembers(names: seq<Name>, n: Name)
    ensures forall x :: x in Inserted(names, n) <==> x in names || x == n
    decreases |names|
  {
    if names != [] && names[|names| - 1] >= n {
      var front, last := names[..|names| - 1], names[|names| - 1];
      assert names == front + [last];
      InsertMembers(front, n);
    }
  }

  lemma AscendingSnoc(names: seq<Name>, last: Name)
    requires Ascending(names) && forall x :: x in names ==> x < last
    ensures Ascending(names + [last])
  {
    var after := names + [last];
    forall i, j | 0 <= i < j < |after| ensures after[i] < after[j] {
      assert after[i] == names[i] && names[i] in names;
    }
  }

  lemma {:induction false} InsertAscending(names: seq<Name>, n: Name)
    requires Ascending(names) && n !in names
    ensures Ascending(Inserted(names, n))
    decreases |names|
  {
    if names == [] {
    } else {
      var front, last := names[..|names| - 1], names[|names| - 1];
      assert names == front + [last];
      forall x | x in front ensures x < last {
        var i :| 0 <= i < |front| && front[i] == x;
        assert names[i] == x;
      }
      if last < n {
        AscendingSnoc(names, n);
      } else {
        InsertAscending(front, n);
        InsertMembers(front, n);
        AscendingSnoc(Inserted(front, n), last);
      }
    }
  }

  lemma InsertLists(names: seq<Name>, files: set<Name>, n: Name)
    requires Lists(names, files) && n !in files
    ensures Lists(Inserted(names, n), files + {n})
  {
    InsertMembers(names, n);
    InsertAscending(names, n);
  }

  /** Where the cursor points: the first name after it, or the first of all. */
  function StartOf(names: seq<Name>, cursor: int): (k: nat)
    ensures k <= |names|
    ensures forall i :: 0 <= i < k ==> names[i] <= cursor
    ensures k < |names| ==> names[k] > cursor
    decreases |names|
  {
    if names == [] then 0
    else
      var front := StartOf(names[..|names| - 1], cursor);
      if front < |names| - 1 then front
      else if names[|names| - 1] > cursor then |names| - 1
      else |names|
  }

  function Rotated(names: seq<Name>, cursor: int): seq<Name> {
    names[StartOf(names, cursor)..] + names[..StartOf(names, cursor)]
  }

  function Min(a: nat, b: nat): nat { if a <= b then a else b }

  function Batch(names: seq<Name>, cursor: int, limit: nat): seq<Name> {
    Rotated(names, cursor)[..Min(limit, |names|)]
  }

  function NextCursor(batch: seq<Name>): int {
    if batch == [] then -1 else batch[|batch| - 1]
  }

  /** How reading one file ends. */
  datatype Read = Fine | Gone | Broken

  /** The results of the names that could be read, in order; an entry that is gone is left out. */
  function Contents(files: Files, names: seq<Name>, found: Name -> Read): seq<Result>
    requires forall n :: n in names ==> n in files
    decreases |names|
  {
    if names == [] then []
    else
      var last := names[|names| - 1];
      assert forall n :: n in names[..|names| - 1] ==> n in names;
      Contents(files, names[..|names| - 1], found) + if found(last) == Fine then [files[last]] else []
  }

  class ResultJournal {
    var files: Files
    var cursor: int

    constructor ()
      ensures files == map[] && cursor == -1
    {
      files, cursor := map[], -1;
    }

    method Append(result: Result, disk: Disk) returns (ok: bool)
      modifies this`files
      ensures (files, ok) == Appended(old(files), result, disk)
    {
      if result.oversized || disk == FailsBefore {
        return false;
      }
      if result.matchId in files {
        if files[result.matchId] != result {
          return false;
        }
      } else {
        files := files[result.matchId := result];
      }
      ok := disk == Works;
    }

    method Acknowledge(name: Name, disk: Disk) returns (ok: bool)
      modifies this`files
      ensures (files, ok) == Acknowledged(old(files), name, disk)
    {
      if disk == FailsBefore {
        return false;
      }
      files := files - {name};
      ok := disk == Works;
    }

    method Names() returns (names: seq<Name>)
      ensures Lists(names, files.Keys)
    {
      names := [];
      var todo := files.Keys;
      while todo != {}
        invariant todo <= files.Keys
        invariant Lists(names, files.Keys - todo)
        decreases todo
      {
        var n :| n in todo;
        InsertLists(names, files.Keys - todo, n);
        assert files.Keys - (todo - {n}) == files.Keys - todo + {n};
        names := Inserted(names, n);
        todo := todo - {n};
      }
    }

    /** `found` says how each file of the batch is found; a broken one leaves the cursor where it was. */
    method Entries(limit: nat, found: Name -> Read) returns (batch: seq<Name>, results: seq<Result>, ok: bool)
      requires limit > 0
      modifies this`cursor
      ensures ReadsOnce(files.Keys, old(cursor), limit, batch)
      ensures ok <==> forall n :: n in batch ==> found(n) != Broken
      ensures cursor == if ok then NextCursor(batch) else old(cursor)
      ensures forall n :: n in batch ==> n in files
      ensures ok ==> results == Contents(files, batch, found)
    {
      var names := Names();
      batch := Batch(names, cursor, limit);
      BatchListed(names, cursor, limit);
      results, ok := ReadAll(batch, found);
      if ok {
        cursor := if |batch| == 0 then -1 else batch[|batch| - 1];
      }
    }

    method ReadAll(batch: seq<Name>, found: Name -> Read) returns (results: seq<Result>, ok: bool)
      requires forall n :: n in batch ==> n in files
      ensures ok <==> forall n :: n in batch ==> found(n) != Broken
      ensures ok ==> results == Contents(files, batch, found)
    {
      results, ok := [], true;
      var i := 0;
      while i < |batch|
        invariant i <= |batch| && ok
        invariant forall n :: n in batch[..i] ==> n in files && found(n) != Broken
        invariant results == Contents(files, batch[..i], found)
      {
        var name := batch[i];
        assert name in batch && batch[..i + 1] == batch[..i] + [name] && batch[..i + 1][..i] == batch[..i];
        match found(name) {
          case Broken =>
            ok := false;
            return;
          case Gone =>
          case Fine => results := results + [files[name]];
        }
        i := i + 1;
      }
      assert batch[..i] == batch;
    }
  }

  /** Exactly the readable entries of a batch are returned. */
  lemma {:induction false} ContentsAre(files: Files, names: seq<Name>, found: Name -> Read)
    requires forall n :: n in names ==> n in files
    ensures forall r :: r in Contents(files, names, found) <==> exists n ::
        n in names && found(n) == Fine && files[n] == r
    decreases |names|
  {
    if names != [] {
      var front, last := names[..|names| - 1], names[|names| - 1];
      assert names == front + [last];
      ContentsAre(files, front, found);
    }
  }

  lemma BatchListed(names: seq<Name>, cursor: int, limit: nat)
    ensures forall n :: n in Batch(names, cursor, limit) ==> n in names
  {
    RotatedSame(names, cursor);
    forall n | n in Batch(names, cursor, limit) ensures n in names {
      assert n in Rotated(names, cursor);
    }
  }

  lemma RotatedSame(names: seq<Name>, cursor: int)
    ensures |Rotated(names, cursor)| == |names|
    ensures forall n :: n in Rotated(names, cursor) <==> n in names
  {
    var k := StartOf(names, cursor);
    assert names == names[..k] + names[k..];
  }

  // ---------------------------------------------------------------------------------------------
  // Fairness

  /** Going round from the cursor, `a` comes before `b`. */
  predicate Before(cursor: int, a: Name, b: Name) {
    if a > cursor then b > a || b <= cursor else a < b <= cursor
  }

  function Ahead(files: set<Name>, cursor: int, x: Name): set<Name> {
    set n | n in files && Before(cursor, n, x)
  }

  /** The cyclic distance from the cursor to a name: how many entries come first. */
  function Distance(files: set<Name>, cursor: int, x: Name): nat {
    |Ahead(files, cursor, x)|
  }

  ghost predicate Ordered(r: seq<Name>, cursor: int) {
    forall i, j :: 0 <= i < j < |r| ==> Before(cursor, r[i], r[j]) && !Before(cursor, r[j], r[i]) && r[i] != r[j]
  }

  lemma RotatedOrder(names: seq<Name>, cursor: int)
    requires Ascending(names)
    ensures Ordered(Rotated(names, cursor), cursor)
  {
    var k := StartOf(names, cursor);
    var high, low := names[k..], names[..k];
    var r := high + low;
    assert forall i :: 0 <= i < |high| ==> high[i] == names[k + i] >= names[k];
    forall i, j | 0 <= i < j < |r|
      ensures Before(cursor, r[i], r[j]) && !Before(cursor, r[j], r[i]) && r[i] != r[j]
    {
      if j < |high| {
        assert r[i] == high[i] && r[j] == high[j];
      } else if i < |high| {
        assert r[i] == high[i] && r[j] == low[j - |high|];
      } else {
        assert r[i] == low[i - |high|] && r[j] == low[j - |high|];
      }
    }
  }

  ghost predicate Distinct(r: seq<Name>) {
    forall i, j :: 0 <= i < j < |r| ==> r[i] != r[j]
  }

  lemma ShownNext(r: seq<Name>, i: nat)
    requires i < |r| && Distinct(r)
    ensures Shown(r, i + 1) == Shown(r, i) + {r[i]} && r[i] !in Shown(r, i)
  {
    var front := r[..i];
    assert r[..i + 1] == front + [r[i]];
    forall j | 0 <= j < |front| ensures front[j] != r[i] {
      assert front[j] == r[j];
    }
  }

  /** In a listing without repeats, as many entries come before an index as the index says. */
  lemma {:induction false} IndexIsCount(r: seq<Name>, i: nat)
    requires i <= |r| && Distinct(r)
    ensures |Shown(r, i)| == i
  {
    if i == 0 {
      assert Shown(r, 0) == {};
    } else {
      IndexIsCount(r, i - 1);
      ShownNext(r, i - 1);
      OneMore(Shown(r, i - 1), r[i - 1]);
    }
  }

  lemma OneMore(names: set<Name>, n: Name)
    requires n !in names
    ensures |names + {n}| == |names| + 1
  {
  }

  function Shown(r: seq<Name>, i: nat): set<Name>
    requires i <= |r|
  {
    set n | n in r[..i]
  }

  /** What comes before the entry at index `i` of the rotation is the rotation up to `i`. */
  lemma AheadIsPrefix(names: seq<Name>, files: set<Name>, cursor: int, i: nat)
    requires Lists(names, files) && i < |Rotated(names, cursor)|
    ensures Ahead(files, cursor, Rotated(names, cursor)[i]) == Shown(Rotated(names, cursor), i)
    ensures Distance(files, cursor, Rotated(names, cursor)[i]) == i
  {
    var r := Rotated(names, cursor);
    RotatedOrder(names, cursor);
    RotatedSame(names, cursor);
    forall n ensures n in Ahead(files, cursor, r[i]) <==> n in r[..i] {
      if n in r {
        var j :| 0 <= j < |r| && r[j] == n;
        assert j < i ==> r[..i][j] == n;
      }
    }
    IndexIsCount(r, i);
  }

  /** An entry is in the batch exactly when fewer than `limit` come first. */
  lemma BatchExactly(names: seq<Name>, files: set<Name>, cursor: int, limit: nat, x: Name)
    requires Lists(names, files) && x in files
    ensures x in Batch(names, cursor, limit) <==> Distance(files, cursor, x) < limit
  {
    var i := PlaceOf(names, files, cursor, x);
    AheadIsPrefix(names, files, cursor, i);
    InBatch(names, cursor, limit, i);
  }

  /** Where an entry is when going round from the cursor. */
  lemma PlaceOf(names: seq<Name>, files: set<Name>, cursor: int, x: Name) returns (i: nat)
    requires Lists(names, files) && x in files
    ensures i < |Rotated(names, cursor)| && Rotated(names, cursor)[i] == x
  {
    RotatedSame(names, cursor);
    assert x in Rotated(names, cursor);
    i :| 0 <= i < |Rotated(names, cursor)| && Rotated(names, cursor)[i] == x;
  }

  lemma InBatch(names: seq<Name>, cursor: int, limit: nat, i: nat)
    requires Ascending(names) && i < |Rotated(names, cursor)|
    ensures Rotated(names, cursor)[i] in Batch(names, cursor, limit) <==> i < limit
  {
    RotatedSame(names, cursor);
    RotatedOrder(names, cursor);
    PrefixHolds(Rotated(names, cursor), cursor, Min(limit, |names|), i);
  }

  lemma PrefixHolds(r: seq<Name>, cursor: int, k: nat, i: nat)
    requires Ordered(r, cursor) && k <= |r| && i < |r|
    ensures r[i] in r[..k] <==> i < k
  {
    var front := r[..k];
    if i < k {
      assert front[i] == r[i];
    } else {
      forall j | 0 <= j < k ensures front[j] != r[i] {
        assert front[j] == r[j];
      }
    }
  }

  /** Moving the cursor forward, but not past `x`, brings `x` closer by everything in between. */
  lemma CursorAdvances(cursor: int, next: Name, x: Name, n: Name)
    requires Before(cursor, next, x) && Before(next, n, x) && n != next
    ensures Before(cursor, n, x) && !Before(cursor, n, next)
  {
  }

  /** What is ahead of `x` from the new cursor was ahead of it before, and was not in the batch. */
  lemma AheadShrinks(files: set<Name>, later: set<Name>, cursor: int, next: Name, x: Name)
    requires later <= files && Before(cursor, next, x)
    ensures Ahead(later, next, x) <= Ahead(files, cursor, x) - (Ahead(files, cursor, next) + {next})
    ensures Ahead(files, cursor, next) <= Ahead(files, cursor, x)
  {
    forall n | n in Ahead(later, next, x) ensures n in Ahead(files, cursor, x) - (Ahead(files, cursor, next) + {next}) {
      NextNotAhead(next, x);
      CursorAdvances(cursor, next, x, n);
    }
  }

  lemma DistanceShrinks(files: set<Name>, later: set<Name>, cursor: int, next: Name, x: Name)
    requires later <= files && next in files && Before(cursor, next, x)
    ensures Distance(later, next, x) + Distance(files, cursor, next) + 1 <= Distance(files, cursor, x)
  {
    AheadShrinks(files, later, cursor, next, x);
    var all, gone := Ahead(files, cursor, x), Ahead(files, cursor, next) + {next};
    NextNotAhead(next, next);
    assert next !in Ahead(files, cursor, next);
    assert |gone| == Distance(files, cursor, next) + 1;
    assert gone <= all;
    assert |all - gone| == |all| - |gone|;
    SubsetSize(Ahead(later, next, x), all - gone);
  }

  /** A batch without `x` ends with a file that comes before `x` and after `limit - 1` others. */
  lemma BatchEnds(names: seq<Name>, files: set<Name>, cursor: int, limit: nat, x: Name) returns (next: Name)
    requires Lists(names, files) && x in files && limit > 0 && x !in Batch(names, cursor, limit)
    ensures next == NextCursor(Batch(names, cursor, limit)) && next in files && Before(cursor, next, x)
    ensures Distance(files, cursor, next) == limit - 1
  {
    var i := PlaceOf(names, files, cursor, x);
    InBatch(names, cursor, limit, i);
    FullBatch(names, cursor, limit);
    next := Rotated(names, cursor)[limit - 1];
    Earlier(names, cursor, limit - 1, i);
    AheadIsPrefix(names, files, cursor, limit - 1);
  }

  lemma FullBatch(names: seq<Name>, cursor: int, limit: nat)
    requires 0 < limit <= |Rotated(names, cursor)|
    ensures NextCursor(Batch(names, cursor, limit)) == Rotated(names, cursor)[limit - 1]
    ensures Rotated(names, cursor)[limit - 1] in names
  {
    RotatedSame(names, cursor);
    assert Rotated(names, cursor)[limit - 1] in Rotated(names, cursor);
  }

  lemma Earlier(names: seq<Name>, cursor: int, i: nat, j: nat)
    requires Ascending(names) && i < j < |Rotated(names, cursor)|
    ensures Before(cursor, Rotated(names, cursor)[i], Rotated(names, cursor)[j])
  {
    RotatedOrder(names, cursor);
  }

  /** A batch without `x` brings the cursor closer to `x` by `limit`, and removals only help. */
  lemma DistanceFalls(names: seq<Name>, files: set<Name>, later: set<Name>, cursor: int, limit: nat, x: Name)
    requires Lists(names, files) && x in files && later <= files && limit > 0
    requires x !in Batch(names, cursor, limit)
    ensures Distance(later, NextCursor(Batch(names, cursor, limit)), x) + limit <= Distance(files, cursor, x)
  {
    var next := BatchEnds(names, files, cursor, limit, x);
    DistanceShrinks(files, later, cursor, next, x);
  }

  lemma NextNotAhead(next: Name, x: Name)
    ensures !Before(next, next, x)
  {
  }

  // ---------------------------------------------------------------------------------------------
  // Runs of reads

  ghost predicate ReadsOnce(files: set<Name>, cursor: int, limit: nat, batch: seq<Name>) {
    exists names :: Lists(names, files) && batch == Batch(names, cursor, limit)
  }

  /** Healthy reads, one after another, of the directory as it is at each of them. */
  ghost predicate Reading(steps: seq<set<Name>>, cursors: seq<int>, limit: nat, batches: seq<seq<Name>>) {
    && |cursors| == |steps| + 1
    && |batches| == |steps|
    && (forall k :: 0 <= k < |steps| ==> ReadsOnce(steps[k], cursors[k], limit, batches[k]))
    && forall k :: 0 < k <= |steps| ==> cursors[k] == NextCursor(batches[k - 1])
  }

  /** Between the reads entries are removed, and none is added. */
  ghost predicate OnlyRemovals(steps: seq<set<Name>>) {
    forall k :: 0 < k < |steps| ==> steps[k] <= steps[k - 1]
  }

  lemma ReadCloser(files: set<Name>, later: set<Name>, cursor: int, limit: nat, batch: seq<Name>, x: Name)
    requires limit > 0 && ReadsOnce(files, cursor, limit, batch)
    requires x in files && later <= files && x !in batch
    ensures Distance(later, NextCursor(batch), x) + limit <= Distance(files, cursor, x)
  {
    var names :| Lists(names, files) && batch == Batch(names, cursor, limit);
    DistanceFalls(names, files, later, cursor, limit, x);
  }

  lemma NotReached(files: set<Name>, cursor: int, limit: nat, batch: seq<Name>, x: Name)
    requires ReadsOnce(files, cursor, limit, batch) && x in files && x !in batch
    ensures Distance(files, cursor, x) >= limit
  {
    var names :| Lists(names, files) && batch == Batch(names, cursor, limit);
    BatchExactly(names, files, cursor, limit, x);
  }

  /** As long as an entry is not read, every read brings the cursor closer to it by the limit. */
  lemma {:induction false} StillFar(steps: seq<set<Name>>, cursors: seq<int>, limit: nat, batches: seq<seq<Name>>,
                                    x: Name, k: nat)
    requires limit > 0 && Reading(steps, cursors, limit, batches) && OnlyRemovals(steps)
    requires k < |steps| && forall j :: 0 <= j < |steps| ==> x in steps[j] && x !in batches[j]
    ensures Distance(steps[k], cursors[k], x) + k * limit <= Distance(steps[0], cursors[0], x)
  {
    if k > 0 {
      StillFar(steps, cursors, limit, batches, x, k - 1);
      ReadStep(steps, cursors, limit, batches, x, k);
      Times(k, limit);
    }
  }

  lemma ReadStep(steps: seq<set<Name>>, cursors: seq<int>, limit: nat, batches: seq<seq<Name>>, x: Name, k: nat)
    requires limit > 0 && Reading(steps, cursors, limit, batches) && OnlyRemovals(steps)
    requires 0 < k < |steps| && x in steps[k - 1] && x !in batches[k - 1]
    ensures Distance(steps[k], cursors[k], x) + limit <= Distance(steps[k - 1], cursors[k - 1], x)
  {
    ReadCloser(steps[k - 1], steps[k], cursors[k - 1], limit, batches[k - 1], x);
  }

  lemma Times(k: nat, limit: nat)
    requires k > 0
    ensures k * limit == (k - 1) * limit + limit
  {
  }

  lemma DistanceBounded(files: set<Name>, cursor: int, x: Name)
    requires x in files
    ensures Distance(files, cursor, x) < |files|
  {
    assert x !in Ahead(files, cursor, x);
    SubsetSize(Ahead(files, cursor, x) + {x}, files);
  }

  /** Enough reads for the entries there were at first reach every entry that survives. */
  lemma EnoughReads(steps: seq<set<Name>>, cursors: seq<int>, limit: nat, batches: seq<seq<Name>>, x: Name)
    requires limit > 0 && Reading(steps, cursors, limit, batches) && OnlyRemovals(steps)
    requires steps != [] && |steps[0]| <= |steps| * limit
    requires forall k :: 0 <= k < |steps| ==> x in steps[k]
    ensures exists k :: 0 <= k < |steps| && x in batches[k]
  {
    if forall j :: 0 <= j < |steps| ==> x !in batches[j] {
      var last := |steps| - 1;
      StillFar(steps, cursors, limit, batches, x, last);
      NotReached(steps[last], cursors[last], limit, batches[last], x);
      DistanceBounded(steps[0], cursors[0], x);
      Times(|steps|, limit);
      assert false;
    }
  }

  /** Without insertions, every entry that survives is in one of the next ceil(n / limit) batches. */
  lemma EveryEntryIsRead(steps: seq<set<Name>>, cursors: seq<int>, limit: nat, batches: seq<seq<Name>>, x: Name)
    requires limit > 0 && Reading(steps, cursors, limit, batches) && OnlyRemovals(steps)
    requires steps != [] && |steps| == (|steps[0]| + limit - 1) / limit
    requires forall k :: 0 <= k < |steps| ==> x in steps[k]
    ensures exists k :: 0 <= k < |steps| && x in batches[k]
  {
    EnoughBatches(|steps[0]|, limit, |steps|);
    EnoughReads(steps, cursors, limit, batches, x);
  }

  lemma EnoughBatches(n: nat, limit: nat, k: nat)
    requires limit > 0 && k == (n + limit - 1) / limit
    ensures n <= k * limit
  {
    assert n + limit - 1 == k * limit + (n + limit - 1) % limit;
  }
}
