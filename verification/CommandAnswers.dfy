/**
 What the command consumer answers and why (server-game/src/redis/command-consumer.ts:264-294): the cache, the stored
 record, the deadline and the handler, for one delivery and over whole runs.
 */
module CommandAnswers {
  import opened Wrappers
  import opened CommandConsumer

  /** A reply to the request is cached and not yet forgotten. */
  predicate Cached(st: State, d: Delivery) {
    d.id in st.local && (st.local[d.id].expiresAt.None? || st.local[d.id].expiresAt.value > d.now)
  }

  /** Redis holds this reply of this server for the request. */
  predicate OnRecord(server: nat, operations: map<RequestId, Record>, id: RequestId, reply: Reply) {
    id in operations && operations[id] == Stored(reply) && reply.requestId == id && reply.server == server
  }

  /** Nobody knows an answer, and Redis said so. */
  ghost predicate Unanswered(server: nat, st: State, d: Delivery) {
    !Cached(st, d) && d.read == Answered && forall reply :: !OnRecord(server, st.operations, d.id, reply)
  }

  predicate TooLate(st: State, d: Delivery) {
    d.now > d.deadlineAt && d.id !in st.staged
  }

  /** The reply is pinned, nothing else happened, and it is handed on unless storing it failed. */
  ghost predicate Answers(st: State, x: State, d: Delivery, handed: Option<Reply>, reply: Reply) {
    && d.id in x.local && x.local[d.id].reply == reply && x.local[d.id].expiresAt == None
    && handed == (if d.store == Answered then Some(reply) else None)
    && (d.store != NoEffect ==> d.id in x.operations && x.operations[d.id] == Stored(reply))
  }

  lemma UsableIsOnRecord(server: nat, st: State, id: RequestId)
    ensures Usable(server, st.operations, id) <==> exists reply :: OnRecord(server, st.operations, id, reply)
  {
    if Usable(server, st.operations, id) {
      assert OnRecord(server, st.operations, id, st.operations[id].reply);
    }
  }

  /**
   A request nobody has an answer for: it is answered `Expired` without running if and only if its deadline has passed
   and no room is staged for it; otherwise its handler runs, and one that completes is logged and gives the answer.
   */
  lemma DeadlineDecides(server: nat, st: State, d: Delivery)
    requires Unanswered(server, st, d)
    ensures
      var (x, handed) := ReplyFor(server, st, d);
      && (TooLate(st, d) <==> x.log == st.log && Answers(st, x, d, handed, Reply(d.id, server, Expired)))
      && (TooLate(st, d) ==> x.staged == st.staged)
      && (!TooLate(st, d) && d.handler.Completes? ==>
            && x.log == st.log + [Ran(d.id, d.handler.answer)] && x.staged == st.staged - {d.id}
            && Answers(st, x, d, handed, Reply(d.id, server, d.handler.answer)))
      && (!TooLate(st, d) && d.handler.Throws? ==>
            && x.log == st.log + (if d.handler.parks then [Parked(d.id)] else [])
            && x.staged == st.staged + (if d.handler.parks then {d.id} else {})
            && d.id !in x.local && handed == None)
  {
    UsableIsOnRecord(server, st, d.id);
    assert Cached(st, d) <==> d.id in Kept(st.local, d.now);
    var (x, handed) := ReplyFor(server, st, d);
    if !TooLate(st, d) && d.handler.Completes? {
      assert |x.log| == |st.log| + 1;
    }
  }

  /** A cached answer is given again, and without one a usable record is; neither runs anything. */
  lemma KnownAnswerIsGiven(server: nat, st: State, d: Delivery, reply: Reply)
    requires if Cached(st, d) then st.local[d.id].reply == reply
             else d.read == Answered && OnRecord(server, st.operations, d.id, reply)
    ensures
      var (x, handed) := ReplyFor(server, st, d);
      x.log == st.log && x.staged == st.staged && Answers(st, x, d, handed, reply)
  {
    assert Cached(st, d) <==> d.id in Kept(st.local, d.now);
  }

  /** Without a cached answer a failing read gives nothing, and nothing happened. */
  lemma FailedReadWaits(server: nat, st: State, d: Delivery)
    requires !Cached(st, d) && d.read != Answered
    ensures
      var (x, handed) := ReplyFor(server, st, d);
      handed == None && x.log == st.log && x.operations == st.operations && x.staged == st.staged && d.id !in x.local
  {
    assert d.id !in Kept(st.local, d.now);
  }

  /** What a delivery adds to the log after the reply is known: the reply if it was sent, then the acknowledgement. */
  lemma ReplyThenAck(server: nat, st: State, d: Delivery)
    ensures
      var (y, handed) := ReplyFor(server, st, d);
      var x := Processed(server, st, d);
      x.log == y.log
               + (if handed.Some? && d.send != NoEffect then [Wrote(d.id, handed.value)] else [])
               + (if handed.Some? && d.send == Answered && d.ack != NoEffect then [Acked(d.id)] else [])
  {
    var (y, handed) := ReplyFor(server, st, d);
    assert y.log + [] == y.log;
    if handed.Some? {
      var sent := if d.send != NoEffect then y.log + [Wrote(d.id, handed.value)] else y.log;
      assert sent + [] == sent;
    }
  }

  /** The answer of a delivery that came through is remembered for a minute, whatever becomes of the record. */
  lemma RememberedForAMinute(server: nat, st: State, d: Delivery, again: Delivery, operations: map<RequestId, Record>)
    requires Finishes(server, st, d) && again.id == d.id && again.now < d.later + 60_000
    ensures
      var x := Processed(server, st, d).(operations := operations);
      var (y, handed) := ReplyFor(server, x, again);
      && y.log == x.log && Answers(x, y, again, handed, ReplyFor(server, st, d).1.value)
  {
    var (y, handed) := ReplyFor(server, st, d);
    var x := Processed(server, st, d).(operations := operations);
    HandedIsCached(server, st, d);
    assert x.local[d.id] == CommandConsumer.Cached(handed.value, Some(d.later + 60_000));
    KnownAnswerIsGiven(server, x, again, handed.value);
  }

  lemma HandedIsCached(server: nat, st: State, d: Delivery)
    ensures
      var (y, handed) := ReplyFor(server, st, d);
      handed.Some? ==> d.id in y.local && y.local[d.id].reply == handed.value
  {
  }

  // ---------------------------------------------------------------------------------------------
  // Runs

  /** Why a reply may be written: its handler ran, Redis held it from the start, or the request came too late. */
  ghost predicate Reason(server: nat, start: map<RequestId, Record>, late: set<RequestId>, log: seq<Event>,
                         id: RequestId, reply: Reply) {
    || Ran(id, reply.answer) in log
    || OnRecord(server, start, id, reply)
    || (reply.answer == Expired && id in late)
  }

  ghost predicate Reasoned(server: nat, start: map<RequestId, Record>, late: set<RequestId>, st: State) {
    && (forall id :: id in st.local ==> Reason(server, start, late, st.log, id, st.local[id].reply))
    && (forall id, r :: OnRecord(server, st.operations, id, r) ==> Reason(server, start, late, st.log, id, r))
    && (forall id, r :: Wrote(id, r) in st.log ==> Reason(server, start, late, st.log, id, r))
  }

  predicate ComesLate(m: Move) {
    m.Deliver? && m.delivery.now > m.delivery.deadlineAt
  }

  /** The requests that were delivered after their deadline. */
  function LateIds(moves: seq<Move>): set<RequestId> {
    set m | m in moves && ComesLate(m) :: m.delivery.id
  }

  lemma MoreReasons(server: nat, start: map<RequestId, Record>, late: set<RequestId>, log: seq<Event>,
                    more: set<RequestId>, longer: seq<Event>, id: RequestId, reply: Reply)
    requires Reason(server, start, late, log, id, reply) && late <= more && log <= longer
    ensures Reason(server, start, more, longer, id, reply)
  {
    if Ran(id, reply.answer) in log {
      var i :| 0 <= i < |log| && log[i] == Ran(id, reply.answer);
      assert longer[i] == log[i];
    }
  }

  /** The reply a delivery settles on has a reason. */
  lemma ReplyReasoned(server: nat, start: map<RequestId, Record>, late: set<RequestId>, st: State, d: Delivery)
    requires Reasoned(server, start, late, st) && (d.now > d.deadlineAt ==> d.id in late)
    ensures
      var (x, handed) := ReplyFor(server, st, d);
      && st.log <= x.log
      && (forall id :: id in x.local && id != d.id ==> id in st.local && x.local[id] == st.local[id])
      && (forall id :: id != d.id ==> (id in x.operations <==> id in st.operations))
      && (forall id :: id != d.id && id in x.operations ==> x.operations[id] == st.operations[id])
      && (forall e :: e in x.log && e !in st.log ==> e.Ran? || e.Parked?)
      && (d.id in x.local ==> Reason(server, start, late, x.log, d.id, x.local[d.id].reply))
      && (x.operations == st.operations
          || (d.id in x.local && d.id in x.operations && x.operations[d.id] == Stored(x.local[d.id].reply)))
  {
    UsableIsOnRecord(server, st, d.id);
    assert Cached(st, d) <==> d.id in Kept(st.local, d.now);
    var (x, handed) := ReplyFor(server, st, d);
    if Cached(st, d) {
      MoreReasons(server, start, late, st.log, late, x.log, d.id, st.local[d.id].reply);
    } else if d.read == Answered && Usable(server, st.operations, d.id) {
      assert OnRecord(server, st.operations, d.id, st.operations[d.id].reply);
    } else if d.read == Answered && !TooLate(st, d) && d.handler.Completes? {
      assert x.log[|st.log|] == Ran(d.id, d.handler.answer);
    }
  }

  lemma StateReasoned(server: nat, start: map<RequestId, Record>, late: set<RequestId>, st: State, d: Delivery)
    requires Reasoned(server, start, late, st) && (d.now > d.deadlineAt ==> d.id in late)
    ensures Reasoned(server, start, late, ReplyFor(server, st, d).0)
  {
    var (x, handed) := ReplyFor(server, st, d);
    ReplyReasoned(server, start, late, st, d);
    forall id | id in x.local ensures Reason(server, start, late, x.log, id, x.local[id].reply) {
      if id != d.id {
        MoreReasons(server, start, late, st.log, late, x.log, id, st.local[id].reply);
      }
    }
    forall id, r | OnRecord(server, x.operations, id, r) ensures Reason(server, start, late, x.log, id, r) {
      if OnRecord(server, st.operations, id, r) {
        MoreReasons(server, start, late, st.log, late, x.log, id, r);
      }
    }
    forall id, r | Wrote(id, r) in x.log ensures Reason(server, start, late, x.log, id, r) {
      MoreReasons(server, start, late, st.log, late, x.log, id, r);
    }
  }

  lemma DeliveryReasoned(server: nat, start: map<RequestId, Record>, late: set<RequestId>, st: State, d: Delivery)
    requires Reasoned(server, start, late, st) && (d.now > d.deadlineAt ==> d.id in late)
    ensures Reasoned(server, start, late, Processed(server, st, d))
  {
    StateReasoned(server, start, late, st, d);
    HandedIsCached(server, st, d);
    ReplyThenAck(server, st, d);
    var y, x := ReplyFor(server, st, d).0, Processed(server, st, d);
    SameReplies(server, st, d);
    forall id | id in x.local ensures Reason(server, start, late, x.log, id, x.local[id].reply) {
      MoreReasons(server, start, late, y.log, late, x.log, id, y.local[id].reply);
    }
    forall id, r | OnRecord(server, x.operations, id, r) ensures Reason(server, start, late, x.log, id, r) {
      MoreReasons(server, start, late, y.log, late, x.log, id, r);
    }
    forall id, r | Wrote(id, r) in x.log ensures Reason(server, start, late, x.log, id, r) {
      MoreReasons(server, start, late, y.log, late, x.log, id, r);
    }
  }

  lemma SameReplies(server: nat, st: State, d: Delivery)
    ensures
      var y, x := ReplyFor(server, st, d).0, Processed(server, st, d);
      && x.operations == y.operations
      && forall id :: id in x.local ==> id in y.local && x.local[id].reply == y.local[id].reply
  {
  }

  lemma MoveReasoned(server: nat, start: map<RequestId, Record>, late: set<RequestId>, st: State, m: Move)
    requires Reasoned(server, start, late, st)
    ensures Reasoned(server, start, late + LateIds([m]), Moved(server, st, m))
  {
    var more := late + LateIds([m]);
    assert Reasoned(server, start, more, st);
    if m.Deliver? {
      assert ComesLate(m) ==> m in [m] && m.delivery.id in LateIds([m]);
      DeliveryReasoned(server, start, more, st, m.delivery);
    }
  }

  /**
   Over every run each reply that was written has a reason: a handler ran and gave that answer, Redis held the reply
   from the start, or the answer is `Expired` and the request was delivered after its deadline.
   */
  lemma {:induction false} AnswersHaveReasons(server: nat, start: map<RequestId, Record>, late: set<RequestId>,
                                              st: State, moves: seq<Move>, end: State)
    requires Reasoned(server, start, late, st) && Runs(server, st, moves, end)
    ensures Reasoned(server, start, late + LateIds(moves), end)
    decreases |moves|
  {
    if moves == [] {
      assert late + LateIds(moves) == late;
    } else {
      MoveReasoned(server, start, late, st, moves[0]);
      AnswersHaveReasons(server, start, late + LateIds([moves[0]]), Moved(server, st, moves[0]), moves[1..], end);
      assert moves == [moves[0]] + moves[1..];
      assert LateIds(moves) == LateIds([moves[0]]) + LateIds(moves[1..]);
      assert late + LateIds([moves[0]]) + LateIds(moves[1..]) == late + LateIds(moves);
    }
  }

  /** From a fresh process: a request answered `Expired` that never ran came late, or Redis held that reply. */
  lemma ExpiredOnlyWhenLate(server: nat, start: map<RequestId, Record>, moves: seq<Move>, end: State, id: RequestId,
                            reply: Reply)
    requires Runs(server, State(start, {}, {}, map[], {}, []), moves, end)
    requires Wrote(id, reply) in end.log && Ran(id, reply.answer) !in end.log
    ensures OnRecord(server, start, id, reply)
         || (reply.answer == Expired && exists m :: m in moves && ComesLate(m) && m.delivery.id == id)
  {
    AnswersHaveReasons(server, start, {}, State(start, {}, {}, map[], {}, []), moves, end);
    assert {} + LateIds(moves) == LateIds(moves);
  }
}
