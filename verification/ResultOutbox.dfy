/**
 The result outbox of server-game/src/redis/result-outbox.ts, in both of its modes: through the shared journal
 until the database confirms, and from memory straight to the stream.
 */
module ResultOutbox {
  import opened Wrappers
  import opened ResultJournal

  // ---------------------------------------------------------------------------------------------
  // Journal mode: one worker's queue and the shared directory

  /** `#persistPending`: the queue, the directory, and whether it got through; `disk` decides each append. */
  function Persisted(queue: seq<Result>, files: Files, disk: nat -> Disk, k: nat): (seq<Result>, Files, bool)
    decreases |queue|
  {
    if queue == [] then ([], files, true)
    else
      var (after, ok) := Appended(files, queue[0], disk(k));
      if ok then Persisted(queue[1..], after, disk, k + 1) else (queue, after, false)
  }

  class JournalOutbox {
    const journal: ResultJournal
    var queue: seq<Result>
    var journalFailed: bool

    constructor (journal: ResultJournal)
      ensures this.journal == journal && queue == [] && !journalFailed
    {
      this.journal := journal;
      queue, journalFailed := [], false;
    }

    /** Returns false where the source throws. */
    method Enqueue(result: Result, disk: nat -> Disk) returns (ok: bool)
      modifies this, journal`files
      ensures (queue, journal.files, ok) == Persisted(old(queue) + [result], old(journal.files), disk, 0)
      ensures journalFailed == (old(journalFailed) || !ok)
    {
      queue := queue + [result];
      ok := PersistPending(disk);
      if !ok {
        journalFailed := true;
      }
    }

    method PersistPending(disk: nat -> Disk) returns (ok: bool)
      modifies this`queue, journal`files
      ensures (queue, journal.files, ok) == Persisted(old(queue), old(journal.files), disk, 0)
    {
      var k := 0;
      while |queue| > 0
        invariant Persisted(queue, journal.files, disk, k) == Persisted(old(queue), old(journal.files), disk, 0)
        decreases |queue|
      {
        ok := journal.Append(queue[0], disk(k));
        if !ok {
          return;
        }
        queue := queue[1..];
        k := k + 1;
      }
      ok := true;
    }
  }

  // ---------------------------------------------------------------------------------------------
  // Any number of workers over one directory

  /** `reading` are the results of the batch a flush still has to ask the database about. */
  datatype Worker = Worker(queue: seq<Result>, reading: set<Result>)

  /** The second line is history: every result enqueued, and those the database confirmed. */
  datatype System = System(files: Files, workers: map<nat, Worker>,
                           enqueued: set<Result>, answered: set<Result>)

  datatype Event =
    | Enqueue(w: nat, result: Result, disk: nat -> Disk)
    | Flush(w: nat, disk: nat -> Disk, batch: set<Result>)
    | Confirmed(w: nat, result: Result, unlink: Disk)
    | Skipped(w: nat, result: Result)
    | Stopped(w: nat)

  ghost predicate Possible(s: System, e: Event) {
    && e.w in s.workers
    && match e {
      case Flush(w, disk, batch) =>
        s.workers[w].reading == {} && forall r ::
            r in batch ==> Filed(Persisted(s.workers[w].queue, s.files, disk, 0).1, r)
      case Confirmed(w, r, _) => r in s.workers[w].reading
      case _ => true
    }
  }

  predicate Filed(files: Files, r: Result) {
    r.matchId in files && files[r.matchId] == r
  }

  function Next(s: System, e: Event): System
    requires e.w in s.workers
  {
    var w := s.workers[e.w];
    match e
    case Enqueue(_, r, disk) =>
      var (queue, files, _) := Persisted(w.queue + [r], s.files, disk, 0);
      s.(files := files, workers := s.workers[e.w := w.(queue := queue)], enqueued := s.enqueued + {r})
    case Flush(_, disk, batch) =>
      var (queue, files, ok) := Persisted(w.queue, s.files, disk, 0);
      s.(files := files, workers := s.workers[e.w := Worker(queue, if ok then batch else {})])
    // the database said yes: the file of that match is removed, and a failing removal ends the flush
    case Confirmed(_, r, unlink) =>
      var (files, ok) := Acknowledged(s.files, r.matchId, unlink);
      s.(files := files, workers := s.workers[e.w := w.(reading := if ok then w.reading - {r} else {})],
         answered := s.answered + {r})
    case Skipped(_, r) => s.(workers := s.workers[e.w := w.(reading := w.reading - {r})])
    case Stopped(_) => s.(workers := s.workers[e.w := w.(reading := {})])
  }

  ghost predicate Queued(s: System, r: Result) {
    exists w :: w in s.workers && r in s.workers[w].queue
  }

  ghost predicate Kept(s: System, r: Result) {
    r in s.answered || Queued(s, r) || Filed(s.files, r)
  }

  /** No result is lost: it waits in a queue or on disk until the database confirmed it. */
  ghost predicate NothingLost(s: System) {
    forall r :: r in s.enqueued ==> Kept(s, r)
  }

  // ---------------------------------------------------------------------------------------------
  // What each step keeps

  /** Persisting moves results from the queue to the directory and drops none, whatever fails on the way. */
  lemma {:induction false} PersistKeeps(queue: seq<Result>, files: Files, disk: nat -> Disk, k: nat)
    ensures
      var (left, after, ok) := Persisted(queue, files, disk, k);
      && (forall n :: n in files ==> n in after && after[n] == files[n])
      && (forall r :: r in queue ==> r in left || Filed(after, r))
      && (forall r :: r in left ==> r in queue)
      && (forall n :: n in after ==> n in files || after[n] in queue)
      && (ok ==> left == [])
    decreases |queue|
  {
    if queue != [] {
      var (after, ok) := Appended(files, queue[0], disk(k));
      if ok {
        PersistKeeps(queue[1..], after, disk, k + 1);
        assert queue == [queue[0]] + queue[1..];
      }
    }
  }

  /** The results that can all be published: small enough, and none in conflict with its file or with another. */
  ghost predicate Publishable(queue: seq<Result>, files: Files) {
    && (forall r :: r in queue ==> !r.oversized && (r.matchId in files ==> files[r.matchId] == r))
    && (forall r, q :: r in queue && q in queue && r.matchId == q.matchId ==> r == q)
  }

  lemma PublishableCons(queue: seq<Result>, files: Files)
    requires queue != []
    ensures
      var r := queue[0];
      Publishable(queue, files)
      <==> !r.oversized && (r.matchId in files ==> files[r.matchId] == r)
           && Publishable(queue[1..], files[r.matchId := r])
  {
    var r, rest := queue[0], queue[1..];
    assert queue == [r] + rest;
    if !r.oversized && (r.matchId in files ==> files[r.matchId] == r) && Publishable(rest, files[r.matchId := r]) {
      forall a, b | a in queue && b in queue && a.matchId == b.matchId ensures a == b {
      }
    }
  }

  /**
   The queue drains if and only if the disk takes every result and all of them can be published: one oversized or
   conflicting result holds back everything behind it.
   */
  lemma {:induction false} DrainsExactly(queue: seq<Result>, files: Files, disk: nat -> Disk, k: nat)
    ensures Persisted(queue, files, disk, k).2
       <==> Publishable(queue, files) && forall i :: k <= i < k + |queue| ==> disk(i) == Works
    decreases |queue|
  {
    if queue != [] {
      var (after, ok) := Appended(files, queue[0], disk(k));
      PublishableCons(queue, files);
      if ok {
        assert after == files[queue[0].matchId := queue[0]];
        DrainsExactly(queue[1..], after, disk, k + 1);
      }
    }
  }

  /** Behind a result that cannot be published nothing moves, whatever the disk does. */
  lemma HeadHoldsBack(r: Result, rest: seq<Result>, files: Files, disk: nat -> Disk, k: nat)
    requires r.oversized || (r.matchId in files && files[r.matchId] != r)
    ensures Persisted([r] + rest, files, disk, k) == ([r] + rest, files, false)
  {
    assert ([r] + rest)[0] == r;
  }

  /** A step that only moves one worker's results into the directory loses nothing. */
  lemma PersistLosesNothing(s: System, x: System, w: nat, queue: seq<Result>, disk: nat -> Disk)
    requires w in s.workers && NothingLost(s) && x.answered == s.answered
    requires forall r :: r in s.workers[w].queue ==> r in queue
    requires x.files == Persisted(queue, s.files, disk, 0).1
    requires x.workers.Keys == s.workers.Keys && x.workers[w].queue == Persisted(queue, s.files, disk, 0).0
    requires forall v :: v in s.workers && v != w ==> x.workers[v] == s.workers[v]
    ensures forall r :: r in s.enqueued || r in queue ==> Kept(x, r)
  {
    PersistKeeps(queue, s.files, disk, 0);
    forall r | r in queue ensures Kept(x, r) {
      if r in x.workers[w].queue {
        assert Queued(x, r);
      }
    }
    forall r | r in s.enqueued && r !in queue ensures Kept(x, r) {
      if Queued(s, r) {
        var v :| v in s.workers && r in s.workers[v].queue;
        assert r in x.workers[v].queue;
      }
    }
  }

  lemma EnqueueLosesNothing(s: System, w: nat, r: Result, disk: nat -> Disk)
    requires w in s.workers && NothingLost(s)
    ensures NothingLost(Next(s, Enqueue(w, r, disk)))
  {
    PersistLosesNothing(s, Next(s, Enqueue(w, r, disk)), w, s.workers[w].queue + [r], disk);
  }

  lemma FlushLosesNothing(s: System, w: nat, disk: nat -> Disk, batch: set<Result>)
    requires w in s.workers && NothingLost(s)
    ensures NothingLost(Next(s, Flush(w, disk, batch)))
  {
    PersistLosesNothing(s, Next(s, Flush(w, disk, batch)), w, s.workers[w].queue, disk);
  }

  /** Does the removal take somebody else's entry, which nothing else keeps? */
  ghost predicate TakesAnother(s: System, r: Result, unlink: Disk) {
    && unlink != FailsBefore && r.matchId in s.files
    && var found := s.files[r.matchId];
       found != r && found in s.enqueued && found !in s.answered && !Queued(s, found)
  }

  /**
   A confirmation loses a result exactly when the file it removes by name holds another result of the same
   match that nothing else keeps.
   */
  lemma ConfirmLosesExactly(s: System, w: nat, r: Result, unlink: Disk)
    requires w in s.workers && NothingLost(s) && Known(s)
    ensures NothingLost(Next(s, Confirmed(w, r, unlink))) <==> !TakesAnother(s, r, unlink)
  {
    var x := Next(s, Confirmed(w, r, unlink));
    forall q ensures Queued(x, q) <==> Queued(s, q) {
      if Queued(s, q) {
        var v :| v in s.workers && q in s.workers[v].queue;
        assert q in x.workers[v].queue;
      }
      if Queued(x, q) {
        var v :| v in x.workers && q in x.workers[v].queue;
        assert q in s.workers[v].queue;
      }
    }
    if TakesAnother(s, r, unlink) {
      assert !Kept(x, s.files[r.matchId]);
    } else {
      forall q | q in x.enqueued ensures Kept(x, q) {
        assert Kept(s, q);
      }
    }
  }

  lemma OthersLoseNothing(s: System, e: Event)
    requires e.w in s.workers && NothingLost(s) && (e.Skipped? || e.Stopped?)
    ensures NothingLost(Next(s, e))
  {
    var x := Next(s, e);
    forall r | r in x.enqueued ensures Kept(x, r) {
      assert Kept(s, r);
      if Queued(s, r) {
        var v :| v in s.workers && r in s.workers[v].queue;
        assert r in x.workers[v].queue;
      }
    }
  }

  // ---------------------------------------------------------------------------------------------
  // Runs

  ghost predicate Run(s: System, events: seq<Event>, end: System)
    decreases |events|
  {
    if events == [] then end == s else Possible(s, events[0]) && Run(Next(s, events[0]), events[1..], end)
  }

  /** Everything in sight was enqueued at some time. */
  ghost predicate Known(s: System) {
    FilesKnown(s.files, s.enqueued) && forall w :: w in s.workers ==> Holds(s.workers[w], s.enqueued)
  }

  ghost predicate FilesKnown(files: Files, known: set<Result>) {
    forall n :: n in files ==> files[n] in known && files[n].matchId == n
  }

  ghost predicate Holds(w: Worker, known: set<Result>) {
    (forall r :: r in w.queue ==> r in known) && w.reading <= known
  }

  /** A match ends once: one result per match. */
  ghost predicate OnePerMatch(results: set<Result>) {
    forall a, b :: a in results && b in results && a.matchId == b.matchId ==> a == b
  }

  lemma {:induction false} PersistNames(queue: seq<Result>, files: Files, disk: nat -> Disk, k: nat)
    requires forall n :: n in files ==> files[n].matchId == n
    ensures var after := Persisted(queue, files, disk, k).1; forall n :: n in after ==> after[n].matchId == n
    decreases |queue|
  {
    if queue != [] {
      var (after, ok) := Appended(files, queue[0], disk(k));
      assert forall n :: n in after ==> after[n].matchId == n;
      if ok {
        PersistNames(queue[1..], after, disk, k + 1);
        assert Persisted(queue, files, disk, k) == Persisted(queue[1..], after, disk, k + 1);
      } else {
        assert Persisted(queue, files, disk, k).1 == after;
      }
    }
  }

  /** Persisting a known queue into a known directory leaves both known. */
  lemma PersistKnown(queue: seq<Result>, files: Files, disk: nat -> Disk, known: set<Result>)
    requires forall r :: r in queue ==> r in known
    requires FilesKnown(files, known)
    ensures
      var (left, after, _) := Persisted(queue, files, disk, 0);
      (forall r :: r in left ==> r in known) && FilesKnown(after, known)
  {
    PersistKeeps(queue, files, disk, 0);
    PersistNames(queue, files, disk, 0);
  }

  /** One worker's new queue and batch, and the new directory, hold only what is known. */
  lemma WorkerKnown(s: System, x: System, w: nat)
    requires Known(s) && w in s.workers && x.workers.Keys == s.workers.Keys && s.enqueued <= x.enqueued
    requires forall v :: v in s.workers && v != w ==> x.workers[v] == s.workers[v]
    requires Holds(x.workers[w], x.enqueued)
    requires FilesKnown(x.files, x.enqueued)
    ensures Known(x)
  {
  }

  lemma EnqueueKnown(s: System, w: nat, r: Result, disk: nat -> Disk)
    requires Known(s) && w in s.workers
    ensures Known(Next(s, Enqueue(w, r, disk)))
  {
    assert Holds(s.workers[w], s.enqueued);
    PersistKnown(s.workers[w].queue + [r], s.files, disk, s.enqueued + {r});
    var (queue, files, ok) := Persisted(s.workers[w].queue + [r], s.files, disk, 0);
    var x := Next(s, Enqueue(w, r, disk));
    assert x.workers[w] == Worker(queue, s.workers[w].reading) && x.files == files;
    WorkerKnown(s, x, w);
  }

  lemma FlushKnown(s: System, w: nat, disk: nat -> Disk, batch: set<Result>)
    requires Known(s) && Possible(s, Flush(w, disk, batch))
    ensures Known(Next(s, Flush(w, disk, batch)))
  {
    assert Holds(s.workers[w], s.enqueued);
    PersistKnown(s.workers[w].queue, s.files, disk, s.enqueued);
    var (queue, files, ok) := Persisted(s.workers[w].queue, s.files, disk, 0);
    forall r | r in batch ensures r in s.enqueued {
      assert Filed(files, r);
    }
    var x := Next(s, Flush(w, disk, batch));
    assert x.workers[w] == Worker(queue, if ok then batch else {}) && x.files == files;
    WorkerKnown(s, x, w);
  }

  lemma StaysKnown(s: System, e: Event)
    requires Known(s) && Possible(s, e)
    ensures Known(Next(s, e)) && s.enqueued <= Next(s, e).enqueued
  {
    match e {
      case Enqueue(w, r, disk) => EnqueueKnown(s, w, r, disk);
      case Flush(w, disk, batch) => FlushKnown(s, w, disk, batch);
      case _ =>
        var x := Next(s, e);
        assert Holds(s.workers[e.w], s.enqueued);
        assert x.workers[e.w].queue == s.workers[e.w].queue && x.workers[e.w].reading <= s.workers[e.w].reading;
        WorkerKnown(s, x, e.w);
    }
  }

  lemma {:induction false} EnqueuedGrows(s: System, events: seq<Event>, end: System)
    requires Run(s, events, end)
    ensures s.enqueued <= end.enqueued
    decreases |events|
  {
    if events != [] {
      EnqueuedGrows(Next(s, events[0]), events[1..], end);
    }
  }

  lemma StepLosesNothing(s: System, e: Event)
    requires NothingLost(s) && Known(s) && Possible(s, e)
    requires e.Confirmed? ==> !TakesAnother(s, e.result, e.unlink)
    ensures NothingLost(Next(s, e))
  {
    match e {
      case Enqueue(w, r, disk) => EnqueueLosesNothing(s, w, r, disk);
      case Flush(w, disk, batch) => FlushLosesNothing(s, w, disk, batch);
      case Confirmed(w, r, unlink) => ConfirmLosesExactly(s, w, r, unlink);
      case _ => OthersLoseNothing(s, e);
    }
  }

  /**
   No loss with any number of workers and any failures, when every match has one result: each enqueued result is
   in some queue or on disk until the database confirmed it.
   */
  lemma {:induction false} NeverLost(s: System, events: seq<Event>, end: System)
    requires Run(s, events, end) && Known(s) && NothingLost(s) && OnePerMatch(end.enqueued)
    ensures NothingLost(end)
    decreases |events|
  {
    if events != [] {
      EnqueuedGrows(s, events, end);
      StepLosesNothing(s, events[0]);
      StaysKnown(s, events[0]);
      NeverLost(Next(s, events[0]), events[1..], end);
    }
  }

  /** Nothing is lost at any point of a run. */
  ghost predicate NothingLostIn(s: System, events: seq<Event>, end: System)
    requires Run(s, events, end)
    decreases |events|
  {
    NothingLost(s) && (events != [] ==> NothingLostIn(Next(s, events[0]), events[1..], end))
  }

  /** Some confirmation of the run takes an entry that nothing else keeps. */
  ghost predicate TakenIn(s: System, events: seq<Event>, end: System)
    requires Run(s, events, end)
    decreases |events|
  {
    events != [] &&
      var e := events[0];
      (e.Confirmed? && TakesAnother(s, e.result, e.unlink)) || TakenIn(Next(s, e), events[1..], end)
  }

  /**
   With any number of workers, any results and any failures: nothing is lost at any point of a run if and only if
   no confirmation in it removes a file that holds another result of the match which nothing else keeps.
   */
  lemma {:induction false} LossExactly(s: System, events: seq<Event>, end: System)
    requires Run(s, events, end) && Known(s) && NothingLost(s)
    ensures NothingLostIn(s, events, end) <==> !TakenIn(s, events, end)
    decreases |events|
  {
    if events != [] {
      var e := events[0];
      StaysKnown(s, e);
      if e.Confirmed? {
        ConfirmLosesExactly(s, e.w, e.result, e.unlink);
      } else {
        StepLosesNothing(s, e);
      }
      if NothingLost(Next(s, e)) {
        LossExactly(Next(s, e), events[1..], end);
      }
    }
  }

  /** One worker alone never loses a result, even if a match should have several. */
  ghost predicate Alone(s: System) {
    && s.workers.Keys == {0}
    && forall r :: r in s.workers[0].reading ==> Filed(s.files, r)
  }

  lemma StaysAlone(s: System, e: Event)
    requires Alone(s) && Possible(s, e)
    ensures Alone(Next(s, e))
  {
    if e.Enqueue? {
      PersistKeeps(s.workers[0].queue + [e.result], s.files, e.disk, 0);
    }
  }

  lemma {:induction false} AloneNeverLost(s: System, events: seq<Event>, end: System)
    requires Run(s, events, end) && Alone(s) && Known(s) && NothingLost(s)
    ensures NothingLost(end)
    decreases |events|
  {
    if events != [] {
      StepLosesNothing(s, events[0]);
      StaysAlone(s, events[0]);
      StaysKnown(s, events[0]);
      AloneNeverLost(Next(s, events[0]), events[1..], end);
    }
  }

  // ---------------------------------------------------------------------------------------------
  // Two workers and two results of one match

  const FIRST := Result(7, 1, false)
  const SECOND := Result(7, 2, false)

  function Fine(): nat -> Disk { (k: nat) => Works }

  function Two(files: Files, reading0: set<Result>, reading1: set<Result>, enqueued: set<Result>,
      answered: set<Result>): System {
    System(files, map[0 := Worker([], reading0), 1 := Worker([], reading1)], enqueued, answered)
  }

  lemma FilesOne(files: Files, r: Result)
    requires r.matchId !in files && !r.oversized
    ensures Persisted([] + [r], files, Fine(), 0) == ([], files[r.matchId := r], true)
  {
    assert ([] + [r])[0] == r && ([] + [r])[1..] == [];
  }

  /** A worker with nothing queued enqueues a result for a match without a file. */
  lemma TwoEnqueue(w: nat, r: Result, reading0: set<Result>, reading1: set<Result>, enqueued: set<Result>,
      answered: set<Result>)
    requires w < 2 && !r.oversized
    ensures Possible(Two(map[], reading0, reading1, enqueued, answered), Enqueue(w, r, Fine()))
    ensures Next(Two(map[], reading0, reading1, enqueued, answered), Enqueue(w, r, Fine()))
         == Two(map[r.matchId := r], reading0, reading1, enqueued + {r}, answered)
  {
    FilesOne(map[], r);
  }

  /** A worker reads the one file. */
  lemma TwoFlush(w: nat, r: Result, reading0: set<Result>, reading1: set<Result>, enqueued: set<Result>,
      answered: set<Result>)
    requires w < 2 && (if w == 0 then reading0 else reading1) == {}
    ensures Possible(Two(map[r.matchId := r], reading0, reading1, enqueued, answered), Flush(w, Fine(), {r}))
    ensures Next(Two(map[r.matchId := r], reading0, reading1, enqueued, answered), Flush(w, Fine(), {r}))
         == Two(map[r.matchId := r], if w == 0 then {r} else reading0, if w == 0 then reading1 else {r},
                enqueued, answered)
  {
  }

  /** A worker's batch of one is confirmed, and whatever the match's file holds is removed. */
  lemma TwoConfirmed(w: nat, r: Result, found: Result, reading0: set<Result>, reading1: set<Result>,
                     enqueued: set<Result>, answered: set<Result>)
    requires w < 2 && (if w == 0 then reading0 else reading1) == {r} && found.matchId == r.matchId
    ensures Possible(Two(map[r.matchId := found], reading0, reading1, enqueued, answered), Confirmed(w, r, Works))
    ensures Next(Two(map[r.matchId := found], reading0, reading1, enqueued, answered), Confirmed(w, r, Works))
         == Two(map[], if w == 0 then {} else reading0, if w == 0 then reading1 else {}, enqueued, answered + {r})
  {
    assert map[r.matchId := found] - {r.matchId} == map[];
    assert {r} - {r} == {};
  }

  lemma RunOne(s: System, e: Event, rest: seq<Event>, end: System)
    requires Possible(s, e) && Run(Next(s, e), rest, end)
    ensures Run(s, [e] + rest, end)
  {
    assert ([e] + rest)[1..] == rest;
  }

  /** From where both workers have read the first result to where the second is gone. */
  lemma SecondIsLost() returns (events: seq<Event>, end: System)
    ensures Run(Two(map[7 := FIRST], {FIRST}, {FIRST}, {FIRST}, {}), events, end)
    ensures SECOND in end.enqueued && !Kept(end, SECOND)
  {
    TwoConfirmed(0, FIRST, FIRST, {FIRST}, {FIRST}, {FIRST}, {});
    TwoEnqueue(1, SECOND, {}, {FIRST}, {FIRST}, {} + {FIRST});
    TwoConfirmed(1, FIRST, SECOND, {}, {FIRST}, {FIRST} + {SECOND}, {} + {FIRST});
    end := Two(map[], {}, {}, {FIRST} + {SECOND}, {} + {FIRST} + {FIRST});
    var last := Confirmed(1, FIRST, Works);
    var middle := Enqueue(1, SECOND, Fine());
    RunOne(Two(map[7 := SECOND], {}, {FIRST}, {FIRST} + {SECOND}, {} + {FIRST}), last, [], end);
    RunOne(Two(map[], {}, {FIRST}, {FIRST}, {} + {FIRST}), middle, [last] + [], end);
    var flushed := Two(map[7 := FIRST], {FIRST}, {FIRST}, {FIRST}, {});
    RunOne(flushed, Confirmed(0, FIRST, Works), [middle] + ([last] + []), end);
    events := [Confirmed(0, FIRST, Works)] + ([middle] + ([last] + []));
    assert !Queued(end, SECOND);
  }

  /**
   Two results of one match and two workers lose one: both read the first result; one removes it, the second
   result is filed, and the other removes that.
   */
  lemma ConflictLosesResult() returns (events: seq<Event>, end: System)
    ensures Run(Two(map[], {}, {}, {}, {}), events, end)
    ensures SECOND in end.enqueued && !Kept(end, SECOND)
  {
    var tail;
    tail, end := SecondIsLost();
    TwoEnqueue(0, FIRST, {}, {}, {}, {});
    assert {} + {FIRST} == {FIRST};
    TwoFlush(0, FIRST, {}, {}, {FIRST}, {});
    TwoFlush(1, FIRST, {FIRST}, {}, {FIRST}, {});
    var a, b, c := Enqueue(0, FIRST, Fine()), Flush(0, Fine(), {FIRST}), Flush(1, Fine(), {FIRST});
    RunOne(Two(map[7 := FIRST], {FIRST}, {}, {FIRST}, {}), c, tail, end);
    RunOne(Two(map[7 := FIRST], {}, {}, {FIRST}, {}), b, [c] + tail, end);
    RunOne(Two(map[], {}, {}, {}, {}), a, [b] + ([c] + tail), end);
    events := [a] + ([b] + ([c] + tail));
  }

  // ---------------------------------------------------------------------------------------------
  // Memory mode

  /**
   `sent` counts the queue's prefix the flush in progress has delivered. The second line is history: everything
   accepted, how much of it left the queue, and for each stream entry its place in that order.
   */
  datatype Memory = Memory(queue: seq<Result>, sent: nat, flushing: bool, stream: seq<Result>,
                           accepted: seq<Result>, gone: nat, places: seq<nat>)

  /** How adding to the stream ends; an add can take effect and lose its answer. */
  datatype Added = Answered | NoEffect | EffectOnly

  class MemoryOutbox {
    const maxEntries: nat
    var queue: seq<Result>
    var sent: nat
    var flushing: bool
    var stream: seq<Result>
    // history
    var accepted: seq<Result>
    var gone: nat
    var places: seq<nat>

    constructor (maxEntries: nat)
      ensures this.maxEntries == maxEntries && Model() == Memory([], 0, false, [], [], 0, [])
    {
      this.maxEntries := maxEntries;
      queue, sent, flushing, stream, accepted, gone, places := [], 0, false, [], [], 0, [];
    }

    function Model(): Memory
      reads this
    {
      Memory(queue, sent, flushing, stream, accepted, gone, places)
    }

    /** Returns false where the source throws: the outbox is full. */
    method Enqueue(result: Result) returns (ok: bool)
      modifies this
      ensures ok <==> |old(queue)| < maxEntries
      ensures Model() == if ok then Took(old(Model()), result) else old(Model())
    {
      if |queue| >= maxEntries {
        return false;
      }
      queue := queue + [result];
      accepted := accepted + [result];
      ok := true;
    }

    method BeginFlush()
      requires !flushing
      modifies this
      ensures Model() == old(Model()).(flushing := true, sent := 0)
    {
      flushing, sent := true, 0;
    }

    /** One turn of the flush loop; between two turns other calls may enqueue. */
    method SendNext(outcome: Added) returns (more: bool)
      requires flushing && sent <= |queue|
      modifies this
      ensures Model() == Sent(old(Model()), outcome)
    {
      if sent == |queue| {
        EndFlush();
        return false;
      }
      if outcome != NoEffect {
        stream := stream + [queue[sent]];
        places := places + [gone + sent];
      }
      if outcome != Answered {
        EndFlush();
        return false;
      }
      sent := sent + 1;
      more := true;
    }

    method EndFlush()
      requires sent <= |queue|
      modifies this
      ensures Model() == Spliced(old(Model()))
    {
      queue := queue[sent..];
      gone := gone + sent;
      flushing, sent := false, 0;
    }
  }

  function Took(m: Memory, r: Result): Memory {
    m.(queue := m.queue + [r], accepted := m.accepted + [r])
  }

  /** The delivered prefix goes, and nothing else: what was enqueued meanwhile stays. */
  function Spliced(m: Memory): Memory
    requires m.sent <= |m.queue|
  {
    m.(queue := m.queue[m.sent..], gone := m.gone + m.sent, flushing := false, sent := 0)
  }

  /** The state after adding, before it is known how the call ended. */
  function Streamed(m: Memory): Memory
    requires m.sent < |m.queue|
  {
    m.(stream := m.stream + [m.queue[m.sent]], places := m.places + [m.gone + m.sent])
  }

  function Sent(m: Memory, outcome: Added): Memory
    requires m.sent <= |m.queue|
  {
    if m.sent == |m.queue| then Spliced(m)
    else
      var x := if outcome == NoEffect then m else Streamed(m);
      if outcome != Answered then Spliced(x) else x.(sent := m.sent + 1)
  }

  datatype Turn = Take(result: Result) | Begin | Send(outcome: Added)

  predicate Can(m: Memory, t: Turn) {
    match t
    case Take(_) => true
    case Begin => !m.flushing
    case Send(_) => m.flushing && m.sent <= |m.queue|
  }

  function Turned(m: Memory, t: Turn): Memory
    requires Can(m, t)
  {
    match t
    case Take(r) => Took(m, r)
    case Begin => m.(flushing := true, sent := 0)
    case Send(outcome) => Sent(m, outcome)
  }

  ghost predicate Turns(m: Memory, turns: seq<Turn>, end: Memory)
    decreases |turns|
  {
    if turns == [] then end == m else Can(m, turns[0]) && Turns(Turned(m, turns[0]), turns[1..], end)
  }

  /** Places go up one at a time from the first, and may repeat. */
  ghost predicate Climbing(places: seq<nat>) {
    && (places != [] ==> places[0] == 0)
    && forall i :: 0 < i < |places| ==> places[i - 1] <= places[i] <= places[i - 1] + 1
  }

  /** How many results are known to be delivered. */
  function Delivered(m: Memory): nat {
    m.gone + if m.flushing then m.sent else 0
  }

  /**
   The queue is what is left of the accepted results; the stream is the accepted results in order, each possibly
   repeated, and has every one that left the queue.
   */
  ghost predicate InOrder(m: Memory) {
    && m.sent <= |m.queue| && m.gone <= |m.accepted| && m.queue == m.accepted[m.gone..]
    && |m.places| == |m.stream| && Climbing(m.places)
    && (forall i :: 0 <= i < |m.places| ==> m.places[i] < |m.accepted| && m.stream[i] == m.accepted[m.places[i]])
    && if m.places == [] then Delivered(m) == 0
       else Delivered(m) <= m.places[|m.places| - 1] + 1 <= Delivered(m) + 1
  }

  lemma SpliceInOrder(m: Memory)
    requires InOrder(m) && m.flushing
    ensures InOrder(Spliced(m))
  {
    assert m.queue[m.sent..] == m.accepted[m.gone + m.sent..];
  }

  /** One result reaches the stream, and the outbox does not know it yet. */
  lemma AddInOrder(m: Memory)
    requires InOrder(m) && m.flushing && m.sent < |m.queue|
    ensures InOrder(Streamed(m)) && Streamed(m).places[|m.places|] == Delivered(m)
  {
    assert m.queue[m.sent] == m.accepted[m.gone + m.sent];
  }

  /** The outbox learns of it. */
  lemma LearnInOrder(m: Memory)
    requires InOrder(m) && m.flushing && m.sent < |m.queue|
    requires m.places != [] && m.places[|m.places| - 1] == Delivered(m)
    ensures InOrder(m.(sent := m.sent + 1))
  {
  }

  lemma SentIs(m: Memory, outcome: Added)
    requires m.sent < |m.queue|
    ensures Sent(m, outcome) == match outcome
      case Answered => Streamed(m).(sent := m.sent + 1)
      case NoEffect => Spliced(m)
      case EffectOnly => Spliced(Streamed(m))
  {
  }

  lemma SendInOrder(m: Memory, outcome: Added)
    requires InOrder(m) && m.flushing
    ensures InOrder(Sent(m, outcome))
  {
    if m.sent == |m.queue| || outcome == NoEffect {
      SpliceInOrder(m);
    } else {
      SentIs(m, outcome);
      AddInOrder(m);
      if outcome == EffectOnly {
        SpliceInOrder(Streamed(m));
      } else {
        LearnInOrder(Streamed(m));
      }
    }
  }

  lemma TakeInOrder(m: Memory, r: Result)
    requires InOrder(m)
    ensures InOrder(Took(m, r))
  {
    assert m.accepted[m.gone..] + [r] == (m.accepted + [r])[m.gone..];
  }

  /** Over every run the stream is the order of enqueueing, despite failures and concurrent enqueues. */
  lemma {:induction false} StreamInOrder(m: Memory, turns: seq<Turn>, end: Memory)
    requires InOrder(m) && Turns(m, turns, end)
    ensures InOrder(end)
    decreases |turns|
  {
    if turns != [] {
      match turns[0] {
        case Take(r) => TakeInOrder(m, r);
        case Begin =>
        case Send(outcome) => SendInOrder(m, outcome);
      }
      StreamInOrder(Turned(m, turns[0]), turns[1..], end);
    }
  }

  /** Nothing leaves the queue without being in the stream. */
  lemma {:induction false} GoneIsInStream(m: Memory, k: nat)
    requires InOrder(m) && k < m.gone
    ensures m.accepted[k] in m.stream
  {
    var i := |m.places| - 1;
    while m.places[i] != k
      invariant 0 <= i < |m.places| && m.places[i] >= k
      decreases i
    {
      i := i - 1;
    }
    assert m.stream[i] == m.accepted[k];
  }

  // ---------------------------------------------------------------------------------------------
  // A flush that is answered delivers

  function Answers(n: nat): seq<Turn> {
    if n == 0 then [] else [Send(Answered)] + Answers(n - 1)
  }

  /** `n` answered adds of a flush stream the next `n` results of the queue, in order. */
  lemma {:induction false} AnsweredAdds(m: Memory, n: nat) returns (end: Memory)
    requires m.flushing && m.sent + n <= |m.queue|
    ensures Turns(m, Answers(n), end)
    ensures end.flushing && end.sent == m.sent + n && end.queue == m.queue
    ensures end.stream == m.stream + m.queue[m.sent..m.sent + n]
    decreases n
  {
    if n == 0 {
      end := m;
      assert m.stream + m.queue[m.sent..m.sent] == m.stream;
    } else {
      var next := OneAdd(m);
      end := AnsweredAdds(next, n - 1);
      assert Answers(n)[0] == Send(Answered) && Answers(n)[1..] == Answers(n - 1);
      NextResults(m, n);
    }
  }

  lemma OneAdd(m: Memory) returns (next: Memory)
    requires m.flushing && m.sent < |m.queue|
    ensures Can(m, Send(Answered)) && next == Turned(m, Send(Answered))
    ensures next.flushing && next.sent == m.sent + 1 && next.queue == m.queue
    ensures next.stream == m.stream + [m.queue[m.sent]]
  {
    next := Turned(m, Send(Answered));
  }

  lemma NextResults(m: Memory, n: nat)
    requires n > 0 && m.sent + n <= |m.queue|
    ensures m.stream + [m.queue[m.sent]] + m.queue[m.sent + 1..m.sent + n] == m.stream + m.queue[m.sent..m.sent + n]
  {
    assert m.queue[m.sent..m.sent + n] == [m.queue[m.sent]] + m.queue[m.sent + 1..m.sent + n];
  }

  /** A flush whose adds are answered puts the whole queue on the stream and empties it. */
  lemma FlushDelivers(m: Memory) returns (end: Memory)
    requires !m.flushing
    ensures Turns(m, [Begin] + Answers(|m.queue| + 1), end)
    ensures end.queue == [] && !end.flushing && end.stream == m.stream + m.queue
  {
    var begun := Turned(m, Begin);
    var last := AnsweredAdds(begun, |m.queue|);
    end := Turned(last, Send(Answered));
    TurnsMore(begun, |m.queue|, last);
    assert ([Begin] + Answers(|m.queue| + 1))[1..] == Answers(|m.queue| + 1);
    assert m.queue[0..|m.queue|] == m.queue;
  }

  lemma {:induction false} TurnsMore(m: Memory, n: nat, last: Memory)
    requires Turns(m, Answers(n), last) && Can(last, Send(Answered))
    ensures Turns(m, Answers(n + 1), Turned(last, Send(Answered)))
    decreases n
  {
    if n == 0 {
      assert Answers(1)[1..] == [] && Answers(1)[0] == Send(Answered);
    } else {
      assert Answers(n)[1..] == Answers(n - 1) && Answers(n + 1)[1..] == Answers(n);
      TurnsMore(Turned(m, Send(Answered)), n - 1, last);
    }
  }
}
