/**
 The at-least-once command consumer of server-game/src/redis/command-consumer.ts.

 One process lifetime, one stream entry per request id. Every Redis call may be answered, fail without
 effect, or take effect and lose its answer; every handler may complete or throw.
 */
module CommandConsumer {
  import opened Wrappers

  type RequestId = nat

  datatype Answer = Expired | Result(code: nat)

  datatype Reply = Reply(requestId: RequestId, server: nat, answer: Answer)

  /** What an operation key may hold: text that does not decode, or a stored reply. */
  datatype Record = Garbage | Stored(reply: Reply)

  /** `expiresAt == None` pins the reply while its entry is not acknowledged. */
  datatype Cached = Cached(reply: Reply, expiresAt: Option<int>)

  /** How a Redis call ends for the consumer: only `Answered` lets it go on. */
  datatype Fault = Answered | NoEffect | EffectOnly

  /** How the command's handler ends. A handler that throws may leave a staged room behind. */
  datatype Handler = Completes(answer: Answer) | Throws(parks: bool)

  /** One delivery of a stream entry together with everything the outside world decides during it. */
  datatype Delivery = Delivery(
    id: RequestId, deadlineAt: int, now: int, later: int,
    handler: Handler, read: Fault, store: Fault, send: Fault, ack: Fault)

  /** What happened, in order: handlers that ran to completion or parked, replies written, entries acknowledged. */
  datatype Event =
    | Ran(id: RequestId, answer: Answer)
    | Parked(id: RequestId)
    | Wrote(id: RequestId, reply: Reply)
    | Acked(id: RequestId)

  /** `pending`: entries in the stream not yet acknowledged; `arrived`: all entries ever added. */
  datatype State = State(
    operations: map<RequestId, Record>,
    arrived: set<RequestId>,
    pending: set<RequestId>,
    local: map<RequestId, Cached>,
    staged: set<RequestId>,
    log: seq<Event>
  )

  const OPERATION_RESULT_TTL_MS := 60_000

  function Kept(local: map<RequestId, Cached>, now: int): map<RequestId, Cached> {
    map id | id in local && !(local[id].expiresAt.Some? && local[id].expiresAt.value <= now) :: local[id]
  }

  predicate Usable(server: nat, operations: map<RequestId, Record>, id: RequestId) {
    id in operations && operations[id].Stored?
    && operations[id].reply.requestId == id && operations[id].reply.server == server
  }

  /** `#replyFor`: the state afterwards, and the reply unless something threw. */
  function ReplyFor(server: nat, st: State, d: Delivery): (State, Option<Reply>) {
    var swept := st.(local := Kept(st.local, d.now));
    if d.id in swept.local then
      Recorded(swept.(local := swept.local[d.id := swept.local[d.id].(expiresAt := None)]), d, swept.local[d.id].reply)
    else if d.read != Answered then (swept, None)
    else if Usable(server, swept.operations, d.id) then
      var reply := swept.operations[d.id].reply;
      Recorded(swept.(local := swept.local[d.id := Cached(reply, None)]), d, reply)
    else if d.now > d.deadlineAt && d.id !in swept.staged then
      var reply := Reply(d.id, server, Expired);
      Recorded(swept.(local := swept.local[d.id := Cached(reply, None)]), d, reply)
    else
      match d.handler
      case Throws(parks) =>
        (swept.(staged := if parks then swept.staged + {d.id} else swept.staged,
                log := if parks then swept.log + [Parked(d.id)] else swept.log), None)
      case Completes(answer) =>
        var reply := Reply(d.id, server, answer);
        Recorded(swept.(staged := swept.staged - {d.id}, log := swept.log + [Ran(d.id, answer)],
                        local := swept.local[d.id := Cached(reply, None)]), d, reply)
  }

  /** Writing the operation record; its failure throws with the local copy already pinned. */
  function Recorded(st: State, d: Delivery, reply: Reply): (State, Option<Reply>) {
    (if d.store == NoEffect then st else st.(operations := st.operations[d.id := Stored(reply)]),
     if d.store == Answered then Some(reply) else None)
  }

  /** `#process` of a well-formed entry: reply, then write it, then acknowledge. */
  function Processed(server: nat, st: State, d: Delivery): State {
    var (st1, reply) := ReplyFor(server, st, d);
    if reply.None? then st1
    else
      var st2 := if d.send == NoEffect then st1 else st1.(log := st1.log + [Wrote(d.id, reply.value)]);
      if d.send != Answered then st2 else Acknowledged(st2, d)
  }

  function Acknowledged(st: State, d: Delivery): State {
    var acked := if d.ack == NoEffect then st
                 else st.(pending := st.pending - {d.id}, log := st.log + [Acked(d.id)]);
    if d.ack != Answered || d.id !in acked.local then acked
    else acked.(local := acked.local[d.id := acked.local[d.id].(expiresAt := Some(d.later + OPERATION_RESULT_TTL_MS))])
  }

  /** Did the delivery end without an exception? */
  predicate Finishes(server: nat, st: State, d: Delivery) {
    ReplyFor(server, st, d).1.Some? && d.send == Answered && d.ack == Answered
  }

  function Ids(entries: seq<Delivery>): set<RequestId> {
    set d | d in entries :: d.id
  }

  /** The first delivery of each entry, in order. */
  function Firsts(entries: seq<Delivery>): seq<Delivery>
    decreases |entries|
  {
    if entries == [] then []
    else
      var front, last := entries[..|entries| - 1], entries[|entries| - 1];
      if last.id in Ids(front) then Firsts(front) else Firsts(front) + [last]
  }

  /** One delivery after the other until one throws: the state, and how many came through. */
  function Polled(server: nat, st: State, entries: seq<Delivery>): (State, nat)
    decreases |entries|
  {
    if entries == [] then (st, 0)
    else
      var next := Processed(server, st, entries[0]);
      if !Finishes(server, st, entries[0]) then (next, 0)
      else
        var (end, n) := Polled(server, next, entries[1..]);
        (end, n + 1)
  }

  // ---------------------------------------------------------------------------------------------
  // The consumer itself

  class Consumer {
    const serverId: nat
    // Redis
    var operations: map<RequestId, Record>
    var arrived: set<RequestId>
    var pending: set<RequestId>
    // process memory
    var localOperations: map<RequestId, Cached>
    var stagedAdoptions: set<RequestId>
    // history
    var log: seq<Event>

    constructor (serverId: nat, operations: map<RequestId, Record>)
      ensures this.serverId == serverId
      ensures Model() == State(operations, {}, {}, map[], {}, [])
    {
      this.serverId := serverId;
      this.operations := operations;
      arrived, pending, localOperations, stagedAdoptions, log := {}, {}, map[], {}, [];
    }

    function Model(): State
      reads this
    {
      State(operations, arrived, pending, localOperations, stagedAdoptions, log)
    }

    method Process(d: Delivery) returns (threw: bool)
      modifies this
      ensures Model() == Processed(serverId, old(Model()), d)
      ensures threw <==> !Finishes(serverId, old(Model()), d)
    {
      var reply := GetReply(d);
      if reply.None? {
        return true;
      }
      if d.send != NoEffect {
        log := log + [Wrote(d.id, reply.value)];
      }
      if d.send != Answered {
        return true;
      }
      if d.ack != NoEffect {
        pending := pending - {d.id};
        log := log + [Acked(d.id)];
      }
      if d.ack != Answered {
        return true;
      }
      if d.id in localOperations {
        var cached := localOperations[d.id];
        localOperations := localOperations[d.id := cached.(expiresAt := Some(d.later + OPERATION_RESULT_TTL_MS))];
      }
      return false;
    }

    method GetReply(d: Delivery) returns (reply: Option<Reply>)
      modifies this
      ensures (Model(), reply) == ReplyFor(serverId, old(Model()), d)
    {
      Sweep(d.now);
      if d.id in localOperations {
        var local := localOperations[d.id];
        localOperations := localOperations[d.id := local.(expiresAt := None)];
        reply := Store(d, local.reply);
        return;
      }
      if d.read != Answered {
        return None;
      }
      if Usable(serverId, operations, d.id) {
        var stored := operations[d.id].reply;
        localOperations := localOperations[d.id := Cached(stored, None)];
        reply := Store(d, stored);
        return;
      }
      var answer := Expired;
      if !(d.now > d.deadlineAt && d.id !in stagedAdoptions) {
        match d.handler {
          case Throws(parks) =>
            if parks {
              stagedAdoptions := stagedAdoptions + {d.id};
              log := log + [Parked(d.id)];
            }
            return None;
          case Completes(result) =>
            answer := result;
            stagedAdoptions := stagedAdoptions - {d.id};
            log := log + [Ran(d.id, answer)];
        }
      }
      var made := Reply(d.id, serverId, answer);
      localOperations := localOperations[d.id := Cached(made, None)];
      reply := Store(d, made);
    }

    method Store(d: Delivery, reply: Reply) returns (answered: Option<Reply>)
      modifies this`operations
      ensures (Model(), answered) == Recorded(old(Model()), d, reply)
    {
      if d.store != NoEffect {
        operations := operations[d.id := Stored(reply)];
      }
      answered := if d.store == Answered then Some(reply) else None;
    }

    /** The loop at the head of `#replyFor`. */
    method Sweep(now: int)
      modifies this`localOperations
      ensures localOperations == Kept(old(localOperations), now)
    {
      var todo := localOperations.Keys;
      var before := localOperations;
      while todo != {}
        invariant todo <= before.Keys
        invariant localOperations.Keys <= before.Keys
        invariant forall id :: id in before ==>
          (id in localOperations <==> id in todo || id in Kept(before, now))
        invariant forall id :: id in localOperations ==> localOperations[id] == before[id]
        decreases todo
      {
        var id :| id in todo;
        todo := todo - {id};
        var cached := localOperations[id];
        if cached.expiresAt.Some? && cached.expiresAt.value <= now {
          localOperations := localOperations - {id};
        }
      }
      assert localOperations == Kept(before, now);
    }

    /**
     One poll: reclaimed entries first, each entry once, stopping at the first exception, where the source throws
     and this returns `None`. Redis hands out only entries that are not acknowledged.
     */
    method PollOnce(reclaimed: seq<Delivery>, unread: seq<Delivery>) returns (handled: Option<nat>)
      requires Good(serverId, Model())
      requires Ids(reclaimed + unread) <= pending
      modifies this
      ensures Good(serverId, Model())
      ensures Model() == Polled(serverId, old(Model()), Firsts(reclaimed + unread)).0
      ensures
        var n := Polled(serverId, old(Model()), Firsts(reclaimed + unread)).1;
        handled == if n == |Ids(reclaimed + unread)| then Some(n) else None
      ensures handled.Some? ==> pending == old(pending) - Ids(reclaimed + unread)
    {
      var entries := Unseen(reclaimed + unread);
      FirstsAre(reclaimed + unread);
      PollGood(serverId, Model(), entries);
      PolledAtMost(serverId, Model(), entries);
      var threw := ProcessAll(entries);
      handled := if threw then None else Some(|entries|);
    }

    method ProcessAll(entries: seq<Delivery>) returns (threw: bool)
      modifies this
      ensures Model() == Polled(serverId, old(Model()), entries).0
      ensures threw <==> Polled(serverId, old(Model()), entries).1 < |entries|
    {
      var i := 0;
      while i < |entries|
        invariant i <= |entries|
        invariant Polled(serverId, old(Model()), entries).0 == Polled(serverId, Model(), entries[i..]).0
        invariant Polled(serverId, old(Model()), entries).1 == Polled(serverId, Model(), entries[i..]).1 + i
      {
        assert entries[i..][0] == entries[i] && entries[i..][1..] == entries[i + 1..];
        threw := Process(entries[i]);
        if threw {
          return;
        }
        i := i + 1;
      }
      threw := false;
    }

    /** The filter in front of the loop. */
    method Unseen(entries: seq<Delivery>) returns (kept: seq<Delivery>)
      ensures kept == Firsts(entries)
    {
      var seen: set<RequestId> := {};
      kept := [];
      var i := 0;
      while i < |entries|
        invariant i <= |entries| && seen == Ids(entries[..i]) && kept == Firsts(entries[..i])
      {
        var d := entries[i];
        assert entries[..i + 1][..i] == entries[..i] && entries[..i + 1] == entries[..i] + [d];
        if d.id !in seen {
          kept := kept + [d];
        }
        seen := seen + {d.id};
        i := i + 1;
      }
      assert entries[..i] == entries;
    }
  }

  // ---------------------------------------------------------------------------------------------
  // What holds over every run

  /** A handler runs to completion at most once per request. */
  ghost predicate RanOnce(log: seq<Event>) {
    forall i, j :: 0 <= i < j < |log| && log[i].Ran? && log[j].Ran? ==> log[i].id != log[j].id
  }

  /** All replies written for a request are the same, and what a completed handler answered. */
  ghost predicate OneAnswer(log: seq<Event>) {
    && (forall id, r, q :: Wrote(id, r) in log && Wrote(id, q) in log ==> r == q)
    && (forall id, r, a :: Wrote(id, r) in log && Ran(id, a) in log ==> r.answer == a)
  }

  /** An entry is acknowledged only after its reply was written, and then nothing more happens for it. */
  ghost predicate AckLast(log: seq<Event>) {
    && (forall j :: 0 <= j < |log| && log[j].Acked? ==> exists i ::
        0 <= i < j && log[i].Wrote? && log[i].id == log[j].id)
    && (forall i, j :: 0 <= i < j < |log| && log[i].Acked? ==> log[j].id != log[i].id)
  }

  /** A handler that left a staged room behind is never answered for: its reply is what a later run of it returned. */
  ghost predicate ParkedFinishes(log: seq<Event>) {
    forall id, r :: Parked(id) in log && Wrote(id, r) in log ==> Ran(id, r.answer) in log
  }

  ghost predicate Silent(log: seq<Event>, id: RequestId) {
    forall e :: e in log ==> e.id != id
  }

  /** What the process remembers about an entry that is still pending. */
  ghost predicate Remembers(server: nat, st: State, id: RequestId) {
    && Acked(id) !in st.log
    && (id in st.local ==>
          && (forall r :: Wrote(id, r) in st.log ==> r == st.local[id].reply)
          && (forall a :: Ran(id, a) in st.log ==> st.local[id].reply.answer == a)
          && (Parked(id) in st.log ==> Ran(id, st.local[id].reply.answer) in st.log)
          && st.local[id].expiresAt == None
          && id !in st.staged)
    && (id !in st.local ==>
          && (forall r :: Wrote(id, r) !in st.log)
          && (forall a :: Ran(id, a) !in st.log)
          && (Parked(id) in st.log <==> id in st.staged)
          && (Parked(id) in st.log ==> !Usable(server, st.operations, id)))
  }

  ghost predicate LogOk(log: seq<Event>) {
    RanOnce(log) && OneAnswer(log) && AckLast(log) && ParkedFinishes(log)
  }

  /** Nothing is known of entries that never arrived, and exactly the acknowledged ones stopped being pending. */
  ghost predicate Bookkeeping(st: State) {
    && st.pending <= st.arrived
    && (forall id :: id !in st.arrived ==> Silent(st.log, id) && id !in st.local && id !in st.staged)
    && (forall id :: id in st.arrived && id !in st.pending <==> Acked(id) in st.log)
  }

  ghost predicate Good(server: nat, st: State) {
    LogOk(st.log) && Bookkeeping(st) && forall id :: id in st.pending ==> Remembers(server, st, id)
  }

  /** The sweep forgets only replies whose entries are acknowledged. */
  lemma SweepGood(server: nat, st: State, now: int)
    requires Good(server, st)
    ensures Good(server, st.(local := Kept(st.local, now)))
  {
    var x := st.(local := Kept(st.local, now));
    forall id | id in x.pending ensures Remembers(server, x, id) {
      assert Remembers(server, st, id);
    }
  }

  /** Pinning a reply that agrees with everything already said about a pending entry. */
  lemma PinGood(server: nat, st: State, id: RequestId, reply: Reply)
    requires Good(server, st) && id in st.pending
    requires if id in st.local then st.local[id].reply == reply else Parked(id) !in st.log
    ensures Good(server, st.(local := st.local[id := Cached(reply, None)]))
  {
    var x := st.(local := st.local[id := Cached(reply, None)]);
    assert Remembers(server, st, id);
    forall k | k in x.pending ensures Remembers(server, x, k) {
      assert Remembers(server, st, k);
    }
  }

  lemma SnocIn(log: seq<Event>, e: Event)
    ensures forall f :: f in log + [e] <==> f in log || f == e
  {
  }

  /** One more event keeps the log in order when it agrees with what the log already says about its request. */
  ghost predicate Fits(log: seq<Event>, e: Event) {
    && Acked(e.id) !in log
    && match e {
      case Ran(id, a) => (forall b :: Ran(id, b) !in log) && (forall r :: Wrote(id, r) !in log)
      case Parked(id) => forall r :: Wrote(id, r) !in log
      case Wrote(id, r) =>
        && (forall q :: Wrote(id, q) in log ==> q == r)
        && (forall a :: Ran(id, a) in log ==> a == r.answer)
        && (Parked(id) in log ==> Ran(id, r.answer) in log)
      case Acked(id) => exists r :: Wrote(id, r) in log
    }
  }

  lemma RanOnceSnoc(log: seq<Event>, e: Event)
    requires RanOnce(log) && Fits(log, e)
    ensures RanOnce(log + [e])
  {
    var after := log + [e];
    forall i, j | 0 <= i < j < |after| && after[i].Ran? && after[j].Ran? ensures after[i].id != after[j].id {
      assert after[i] == log[i] && log[i] in log;
      assert log[i] == Ran(log[i].id, log[i].answer);
    }
  }

  lemma AckLastSnoc(log: seq<Event>, e: Event)
    requires AckLast(log) && Fits(log, e)
    ensures AckLast(log + [e])
  {
    var after := log + [e];
    forall j | 0 <= j < |after| && after[j].Acked?
      ensures exists i :: 0 <= i < j && after[i].Wrote? && after[i].id == after[j].id
    {
      if j < |log| {
        var i :| 0 <= i < j && log[i].Wrote? && log[i].id == log[j].id;
        assert after[i] == log[i] && after[j] == log[j];
      } else {
        var r :| Wrote(e.id, r) in log;
        var i :| 0 <= i < |log| && log[i] == Wrote(e.id, r);
        assert after[i] == log[i];
      }
    }
    forall i, j | 0 <= i < j < |after| && after[i].Acked? ensures after[j].id != after[i].id {
      assert after[i] == log[i] && log[i] in log;
      assert log[i] == Acked(log[i].id);
    }
  }

  lemma LogSnoc(log: seq<Event>, e: Event)
    requires LogOk(log) && Fits(log, e)
    ensures LogOk(log + [e])
  {
    RanOnceSnoc(log, e);
    AckLastSnoc(log, e);
    SnocIn(log, e);
  }

  /** An event for one request changes nothing the process remembers about another. */
  lemma OthersRemembered(server: nat, st: State, x: State, e: Event, k: RequestId)
    requires Remembers(server, st, k) && k != e.id
    requires x.log == st.log + [e] && x.operations == st.operations
    requires k in x.local <==> k in st.local
    requires k in st.local ==> x.local[k] == st.local[k]
    requires k in x.staged <==> k in st.staged
    ensures Remembers(server, x, k)
  {
    SnocIn(st.log, e);
  }

  lemma BookkeepingSnoc(st: State, x: State, e: Event)
    requires Bookkeeping(st) && e.id in st.pending && Acked(e.id) !in st.log
    requires x.log == st.log + [e] && x.arrived == st.arrived
    requires x.pending == if e.Acked? then st.pending - {e.id} else st.pending
    requires forall k :: k != e.id ==> (k in x.local <==> k in st.local) && (k in x.staged <==> k in st.staged)
    ensures Bookkeeping(x)
  {
    SnocIn(st.log, e);
    forall k ensures k in x.arrived && k !in x.pending <==> Acked(k) in x.log {
      assert Acked(k) in x.log <==> Acked(k) in st.log || Acked(k) == e;
    }
  }

  /** One event for a pending request: what remains is what is remembered about that request itself. */
  lemma EventGood(server: nat, st: State, x: State, e: Event)
    requires Good(server, st) && e.id in st.pending && Fits(st.log, e)
    requires x.log == st.log + [e] && x.arrived == st.arrived && x.operations == st.operations
    requires x.pending == if e.Acked? then st.pending - {e.id} else st.pending
    requires forall k :: k != e.id ==> (k in x.local <==> k in st.local) && (k in x.staged <==> k in st.staged)
    requires forall k :: k != e.id && k in st.local ==> x.local[k] == st.local[k]
    requires !e.Acked? ==> Remembers(server, x, e.id)
    ensures Good(server, x)
  {
    LogSnoc(st.log, e);
    BookkeepingSnoc(st, x, e);
    forall k | k in x.pending ensures Remembers(server, x, k) {
      if k != e.id {
        OthersRemembered(server, st, x, e, k);
      }
    }
  }

  /** The handler completes: its answer is pinned in the same step. */
  lemma RanGood(server: nat, st: State, id: RequestId, answer: Answer)
    requires Good(server, st) && id in st.pending && id !in st.local
    ensures Good(server, st.(staged := st.staged - {id}, log := st.log + [Ran(id, answer)],
                             local := st.local[id := Cached(Reply(id, server, answer), None)]))
  {
    var e := Ran(id, answer);
    var x := st.(staged := st.staged - {id}, log := st.log + [e],
                 local := st.local[id := Cached(Reply(id, server, answer), None)]);
    assert Remembers(server, st, id);
    assert Remembers(server, x, id) by {
      SnocIn(st.log, e);
    }
    EventGood(server, st, x, e);
  }

  lemma ParkGood(server: nat, st: State, id: RequestId)
    requires Good(server, st) && id in st.pending && id !in st.local && !Usable(server, st.operations, id)
    ensures Good(server, st.(staged := st.staged + {id}, log := st.log + [Parked(id)]))
  {
    var e := Parked(id);
    var x := st.(staged := st.staged + {id}, log := st.log + [e]);
    assert Remembers(server, st, id);
    assert Remembers(server, x, id) by {
      SnocIn(st.log, e);
    }
    EventGood(server, st, x, e);
  }

  lemma RecordGood(server: nat, st: State, d: Delivery, reply: Reply)
    requires Good(server, st) && d.id in st.local
    ensures Good(server, Recorded(st, d, reply).0)
  {
    var x := Recorded(st, d, reply).0;
    forall k | k in x.pending ensures Remembers(server, x, k) {
      assert Remembers(server, st, k);
    }
  }

  lemma WriteGood(server: nat, st: State, id: RequestId)
    requires Good(server, st) && id in st.pending && id in st.local
    ensures Good(server, st.(log := st.log + [Wrote(id, st.local[id].reply)]))
  {
    var e := Wrote(id, st.local[id].reply);
    var x := st.(log := st.log + [e]);
    assert Remembers(server, st, id);
    assert Remembers(server, x, id) by {
      SnocIn(st.log, e);
    }
    EventGood(server, st, x, e);
  }

  lemma AckGood(server: nat, st: State, id: RequestId, reply: Reply)
    requires Good(server, st) && id in st.pending && Wrote(id, reply) in st.log
    ensures Good(server, st.(pending := st.pending - {id}, log := st.log + [Acked(id)]))
  {
    assert Remembers(server, st, id);
    EventGood(server, st, st.(pending := st.pending - {id}, log := st.log + [Acked(id)]), Acked(id));
  }

  /** Once acknowledged, an entry's cached reply may be given a lifetime. */
  lemma ReleaseGood(server: nat, st: State, id: RequestId, until: int)
    requires Good(server, st) && id in st.local && id !in st.pending
    ensures Good(server, st.(local := st.local[id := st.local[id].(expiresAt := Some(until))]))
  {
    var x := st.(local := st.local[id := st.local[id].(expiresAt := Some(until))]);
    forall k | k in x.pending ensures Remembers(server, x, k) {
      assert Remembers(server, st, k);
    }
  }

  lemma ReplyGood(server: nat, st: State, d: Delivery)
    requires Good(server, st) && d.id in st.pending
    ensures
      var (x, reply) := ReplyFor(server, st, d);
      && Good(server, x) && st.log <= x.log && x.arrived == st.arrived && x.pending == st.pending
      && (reply.Some? ==> d.id in x.local && x.local[d.id].reply == reply.value)
  {
    SweepGood(server, st, d.now);
    var swept := st.(local := Kept(st.local, d.now));
    assert Remembers(server, swept, d.id);
    if d.id in swept.local {
      PinGood(server, swept, d.id, swept.local[d.id].reply);
      RecordGood(server, swept.(local := swept.local[d.id := Cached(swept.local[d.id].reply, None)]), d,
          swept.local[d.id].reply);
    } else if d.read == Answered {
      if Usable(server, swept.operations, d.id) {
        var reply := swept.operations[d.id].reply;
        PinGood(server, swept, d.id, reply);
        RecordGood(server, swept.(local := swept.local[d.id := Cached(reply, None)]), d, reply);
      } else if d.now > d.deadlineAt && d.id !in swept.staged {
        var reply := Reply(d.id, server, Expired);
        PinGood(server, swept, d.id, reply);
        RecordGood(server, swept.(local := swept.local[d.id := Cached(reply, None)]), d, reply);
      } else {
        match d.handler {
          case Throws(parks) =>
            if parks {
              ParkGood(server, swept, d.id);
            }
          case Completes(answer) =>
            var reply := Reply(d.id, server, answer);
            RanGood(server, swept, d.id, answer);
            RecordGood(server, swept.(staged := swept.staged - {d.id}, log := swept.log + [Ran(d.id, answer)],
                                      local := swept.local[d.id := Cached(reply, None)]), d, reply);
        }
      }
    }
  }

  /** The acknowledgement and what follows it. */
  lemma AckStepGood(server: nat, st: State, d: Delivery, reply: Reply)
    requires Good(server, st) && d.id in st.pending && d.id in st.local && Wrote(d.id, reply) in st.log
    ensures Good(server, Acknowledged(st, d))
  {
    if d.ack != NoEffect {
      AckGood(server, st, d.id, reply);
      var after := st.(pending := st.pending - {d.id}, log := st.log + [Acked(d.id)]);
      ReleaseGood(server, after, d.id, d.later + OPERATION_RESULT_TTL_MS);
    }
  }

  lemma DeliveryGood(server: nat, st: State, d: Delivery)
    requires Good(server, st) && d.id in st.pending
    ensures Good(server, Processed(server, st, d))
    ensures st.log <= Processed(server, st, d).log && Processed(server, st, d).arrived == st.arrived
    ensures Processed(server, st, d).pending + {d.id} >= st.pending
  {
    ReplyGood(server, st, d);
    var (st1, reply) := ReplyFor(server, st, d);
    if reply.Some? {
      if d.send != NoEffect {
        WriteGood(server, st1, d.id);
        var st2 := st1.(log := st1.log + [Wrote(d.id, reply.value)]);
        if d.send == Answered {
          AckStepGood(server, st2, d, reply.value);
        }
      }
    }
  }

  ghost predicate DistinctIds(entries: seq<Delivery>) {
    forall i, j :: 0 <= i < j < |entries| ==> entries[i].id != entries[j].id
  }

  /** The filter keeps exactly one delivery of each entry. */
  lemma {:induction false} FirstsAre(entries: seq<Delivery>)
    ensures DistinctIds(Firsts(entries)) && Ids(Firsts(entries)) == Ids(entries) && |Firsts(entries)| == |Ids(entries)|
    decreases |entries|
  {
    if entries != [] {
      var front, last := entries[..|entries| - 1], entries[|entries| - 1];
      FirstsAre(front);
      assert entries == front + [last];
      IdsSnoc(front, last);
      if last.id !in Ids(front) {
        IdsSnoc(Firsts(front), last);
        DistinctSnoc(Firsts(front), last);
      } else {
        assert Ids(front) + {last.id} == Ids(front);
      }
    }
  }

  lemma IdsSnoc(entries: seq<Delivery>, d: Delivery)
    ensures Ids(entries + [d]) == Ids(entries) + {d.id}
  {
  }

  lemma DistinctSnoc(entries: seq<Delivery>, d: Delivery)
    requires DistinctIds(entries) && d.id !in Ids(entries)
    ensures DistinctIds(entries + [d])
  {
    forall i | 0 <= i < |entries| ensures entries[i].id != d.id {
      assert entries[i] in entries;
    }
  }

  lemma {:induction false} PolledAtMost(server: nat, st: State, entries: seq<Delivery>)
    ensures Polled(server, st, entries).1 <= |entries|
    ensures entries != [] && !Finishes(server, st, entries[0]) ==> Polled(server, st, entries).1 < |entries|
    decreases |entries|
  {
    if entries != [] {
      PolledAtMost(server, Processed(server, st, entries[0]), entries[1..]);
    }
  }

  /** A delivery settles its own entry if it comes through, and touches no other. */
  lemma DeliverySettles(server: nat, st: State, d: Delivery)
    ensures Finishes(server, st, d) ==> Processed(server, st, d).pending == st.pending - {d.id}
    ensures st.pending - {d.id} <= Processed(server, st, d).pending <= st.pending
  {
  }

  /** A poll keeps everything the consumer promises, and one that comes through acknowledges every entry. */
  lemma {:induction false} PollGood(server: nat, st: State, entries: seq<Delivery>)
    requires Good(server, st) && Ids(entries) <= st.pending && DistinctIds(entries)
    ensures Good(server, Polled(server, st, entries).0)
    ensures Polled(server, st, entries).1 == |entries|
        ==> Polled(server, st, entries).0.pending == st.pending - Ids(entries)
    decreases |entries|
  {
    if entries != [] {
      var d, rest := entries[0], entries[1..];
      var next := Processed(server, st, d);
      IdsCons(entries);
      DeliveryGood(server, st, d);
      DeliverySettles(server, st, d);
      if Finishes(server, st, d) {
        PollGood(server, next, rest);
        PolledCons(server, st, entries);
        assert st.pending - {d.id} - Ids(rest) == st.pending - Ids(entries);
      }
    }
  }

  lemma PolledCons(server: nat, st: State, entries: seq<Delivery>)
    requires entries != [] && Finishes(server, st, entries[0])
    ensures
      var next := Polled(server, Processed(server, st, entries[0]), entries[1..]);
      Polled(server, st, entries) == (next.0, next.1 + 1)
  {
  }

  lemma IdsCons(entries: seq<Delivery>)
    requires entries != [] && DistinctIds(entries)
    ensures Ids(entries) == {entries[0].id} + Ids(entries[1..]) && entries[0].id !in Ids(entries[1..])
    ensures DistinctIds(entries[1..])
  {
    assert entries == [entries[0]] + entries[1..];
  }

  // ---------------------------------------------------------------------------------------------
  // Runs

  /** A new entry arrives, an entry is delivered, or an operation record expires. */
  datatype Move = Arrive(id: RequestId) | Deliver(delivery: Delivery) | Forget(id: RequestId)

  predicate Possible(st: State, m: Move) {
    match m
    case Arrive(id) => id !in st.arrived
    case Deliver(d) => d.id in st.pending
    case Forget(_) => true
  }

  function Moved(server: nat, st: State, m: Move): State {
    match m
    case Arrive(id) => st.(arrived := st.arrived + {id}, pending := st.pending + {id})
    case Deliver(d) => Processed(server, st, d)
    case Forget(id) => st.(operations := st.operations - {id})
  }

  ghost predicate Runs(server: nat, st: State, moves: seq<Move>, end: State)
    decreases |moves|
  {
    if moves == [] then end == st
    else Possible(st, moves[0]) && Runs(server, Moved(server, st, moves[0]), moves[1..], end)
  }

  lemma MoveGood(server: nat, st: State, m: Move)
    requires Good(server, st) && Possible(st, m)
    ensures Good(server, Moved(server, st, m))
  {
    match m
    case Deliver(d) => DeliveryGood(server, st, d);
    case Arrive(id) =>
      var x := Moved(server, st, m);
      assert Silent(st.log, id);
      forall k | k in x.pending ensures Remembers(server, x, k) {
        if k != id {
          assert Remembers(server, st, k);
        }
      }
    case Forget(id) =>
      var x := Moved(server, st, m);
      forall k | k in x.pending ensures Remembers(server, x, k) {
        assert Remembers(server, st, k);
      }
  }

  lemma {:induction false} RunGood(server: nat, st: State, moves: seq<Move>, end: State)
    requires Good(server, st) && Runs(server, st, moves, end)
    ensures Good(server, end)
    decreases |moves|
  {
    if moves != [] {
      MoveGood(server, st, moves[0]);
      RunGood(server, Moved(server, st, moves[0]), moves[1..], end);
    }
  }

  /**
   Exactly-once over every run of a fresh process, whatever fails and however often entries are redelivered:
   each handler completes at most once, each request gets one answer, an acknowledgement follows its reply,
   and an entry without one is still pending.
   */
  lemma ExactlyOnce(server: nat, operations: map<RequestId, Record>, moves: seq<Move>, end: State)
    requires Runs(server, State(operations, {}, {}, map[], {}, []), moves, end)
    ensures RanOnce(end.log) && OneAnswer(end.log) && AckLast(end.log) && ParkedFinishes(end.log)
    ensures forall id :: id in end.arrived ==> (id in end.pending <==> Acked(id) !in end.log)
  {
    RunGood(server, State(operations, {}, {}, map[], {}, []), moves, end);
  }

  /** Completing a handler is enough: from then on any delivery that is answered writes that answer. */
  lemma RedeliveryRepeatsAnswer(server: nat, st: State, d: Delivery, answer: Answer)
    requires Good(server, st) && d.id in st.pending && Ran(d.id, answer) in st.log
    ensures
      var x := Processed(server, st, d);
      && (forall e :: e in x.log && e !in st.log ==> e == Wrote(d.id, st.local[d.id].reply) || e == Acked(d.id))
      && d.id in st.local && st.local[d.id].reply.answer == answer
  {
    assert Remembers(server, st, d.id);
  }
}
