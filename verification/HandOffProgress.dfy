/**
 What a hand-off gets done when its calls are answered: the source's offer, the peer's adoption and the publish
 loop, each as a run of steps that can be taken and the world it ends in.
 */
module HandOffProgress {
  import opened Wrappers
  import opened HandOff
  import opened HandOffInvariant
  import opened HandOffSafety
  import Redis

  /** Only server `s` moved, in memory alone. */
  ghost predicate OnlyMemory(w: World, x: World, s: ServerId) {
    && |x.servers| == |w.servers| && x.redis == w.redis
    && x.sent == w.sent && x.issued == w.issued && x.owner == w.owner
    && forall r :: 0 <= r < |w.servers| && r != s ==> x.servers[r] == w.servers[r]
  }

  /** The run can be taken and ends in `x`. */
  ghost predicate LeadsTo(w: World, run: seq<Label>, x: World) {
    Takes(w, run) && After(w, run) == x
  }

  lemma OneStep(w: World, l: Label)
    requires Enabled(w, l)
    ensures LeadsTo(w, [l], Apply(w, l))
  {
    assert Takes(Apply(w, l), []) && After(Apply(w, l), []) == Apply(w, l);
    TakesCons(w, l, []);
    assert [l] + [] == [l];
  }

  lemma OneMore(w: World, l: Label, run: seq<Label>, x: World)
    requires Enabled(w, l) && LeadsTo(Apply(w, l), run, x)
    ensures LeadsTo(w, [l] + run, x)
  {
    TakesCons(w, l, run);
  }

  lemma TwoMore(w: World, l: Label, m: Label, run: seq<Label>)
    requires Enabled(w, l) && Enabled(Apply(w, l), m) && Takes(Apply(Apply(w, l), m), run)
    ensures LeadsTo(w, [l, m] + run, After(Apply(Apply(w, l), m), run))
  {
    OneMore(Apply(w, l), m, run, After(Apply(Apply(w, l), m), run));
    OneMore(w, l, [m] + run, After(Apply(Apply(w, l), m), run));
    assert [l, m] + run == [l] + ([m] + run);
  }

  // ---------------------------------------------------------------------------------------------
  // The peer: a staged room is never stuck

  /** The adoption of `t` on `s` is over: the room went live if `t` was committed and is gone otherwise. */
  ghost predicate Settled(w: World, x: World, s: ServerId, t: TransferId)
    requires s < |w.servers| && t in w.sent
  {
    && OnlyMemory(w, x, s)
    && x.servers[s].adopt == Rest && x.servers[s].staged == None
    && x.servers[s].draining == w.servers[s].draining
    && x.servers[s].room == if IsCommitted(w, t) then Held(false, w.sent[t].members) else Missing
  }

  lemma ResolveSettles(w: World, s: ServerId, t: TransferId)
    requires Inv(w) && s < |w.servers| && w.servers[s].adopt == Rechecked(t, IsCommitted(w, t))
    ensures t in w.sent && Enabled(w, Resolve(s)) && Settled(w, Apply(w, Resolve(s)), s, t)
  {
    assert ServerOk(w, s);
  }

  lemma RecheckAnswered(w: World, s: ServerId, t: TransferId)
    requires s < |w.servers| && w.servers[s].adopt == Recheck(t)
    ensures Enabled(w, RecheckCall(s))
    ensures
      Apply(w, RecheckCall(s)) == With(w, s, w.servers[s].(adopt := Rechecked(t, IsCommitted(w, t))))
  {
  }

  /** Moving the adoption along leaves the same to settle. */
  lemma SettledBefore(w: World, y: World, x: World, s: ServerId, t: TransferId)
    requires s < |w.servers| && t in w.sent && OnlyMemory(w, y, s) && y.servers[s].draining == w.servers[s].draining
    requires Settled(y, x, s, t)
    ensures Settled(w, x, s, t)
  {
  }

  /**
   A second look at the intent that is answered ends the adoption: the room is live with the roster of the command
   if the transfer was committed, and discarded otherwise.
   */
  lemma AdoptionResolves(w: World, s: ServerId, t: TransferId)
    requires Inv(w) && s < |w.servers| && w.servers[s].adopt == Recheck(t)
    ensures w.servers[s].staged == Some(t) && t in w.sent
    ensures Takes(w, [RecheckCall(s), Resolve(s)])
    ensures Settled(w, After(w, [RecheckCall(s), Resolve(s)]), s, t)
  {
    assert ServerOk(w, s);
    RecheckAnswered(w, s, t);
    StepOk(w, RecheckCall(s));
    var y := With(w, s, w.servers[s].(adopt := Rechecked(t, IsCommitted(w, t))));
    assert Apply(w, RecheckCall(s)) == y;
    ResolvedAfter(w, y, s, t);
    SettledBefore(w, y, Apply(y, Resolve(s)), s, t);
  }

  lemma ResolvedAfter(w: World, y: World, s: ServerId, t: TransferId)
    requires Inv(y) && s < |y.servers| && y.servers[s].adopt == Rechecked(t, IsCommitted(y, t))
    requires Enabled(w, RecheckCall(s)) && Apply(w, RecheckCall(s)) == y
    ensures t in y.sent && Enabled(y, Resolve(s)) && Settled(y, Apply(y, Resolve(s)), s, t)
    ensures LeadsTo(w, [RecheckCall(s), Resolve(s)], Apply(y, Resolve(s)))
  {
    ResolveSettles(y, s, t);
    OneStep(y, Resolve(s));
    OneMore(w, RecheckCall(s), [Resolve(s)], Apply(y, Resolve(s)));
    assert [RecheckCall(s)] + [Resolve(s)] == [RecheckCall(s), Resolve(s)];
  }

  /** An error on the way, or a redelivery after one, comes to the second look. */
  lemma ErrorRechecks(w: World, s: ServerId, t: TransferId)
    requires s < |w.servers| && w.servers[s].staged == Some(t)
    requires !w.servers[s].adopt.Rest? && !w.servers[s].adopt.Recheck? && !w.servers[s].adopt.Rechecked?
    requires w.servers[s].adopt.id == t
    ensures Enabled(w, AdoptLost(s)) && Apply(w, AdoptLost(s)) == With(w, s, w.servers[s].(adopt := Recheck(t)))
  {
  }

  lemma RedeliveryChecks(w: World, s: ServerId, t: TransferId)
    requires s < |w.servers| && w.servers[s].staged == Some(t) && w.servers[s].adopt.Rest?
    requires t in w.sent && w.sent[t].target == s
    ensures Enabled(w, Deliver(s, t, false))
    ensures Apply(w, Deliver(s, t, false)) == With(w, s, w.servers[s].(adopt := Check(t)))
  {
  }

  /** From wherever an adoption stands, and even from a staged room nobody works on, some run ends it. */
  lemma StagedIsNeverStuck(w: World, s: ServerId, t: TransferId) returns (run: seq<Label>)
    requires Inv(w) && s < |w.servers| && w.servers[s].staged == Some(t)
    ensures t in w.sent && Takes(w, run) && Settled(w, After(w, run), s, t)
    decreases if w.servers[s].adopt.Rest? then 2 else if w.servers[s].adopt.Recheck? then 0 else 1
  {
    assert ServerOk(w, s);
    var a := w.servers[s].adopt;
    if a.Recheck? {
      AdoptionResolves(w, s, t);
      run := [RecheckCall(s), Resolve(s)];
    } else if a.Rechecked? {
      ResolveSettles(w, s, t);
      OneStep(w, Resolve(s));
      run := [Resolve(s)];
    } else {
      var l := if a.Rest? then Deliver(s, t, false) else AdoptLost(s);
      if a.Rest? {
        RedeliveryChecks(w, s, t);
      } else {
        ErrorRechecks(w, s, t);
      }
      StepOk(w, l);
      var rest := StagedIsNeverStuck(Apply(w, l), s, t);
      OneMore(w, l, rest, After(Apply(w, l), rest));
      SettledBefore(w, Apply(w, l), After(Apply(w, l), rest), s, t);
      run := [l] + rest;
    }
  }

  /** A server whose adoption was discarded takes the next transfer that is delivered to it, unless it drains. */
  lemma NextTransferIsStaged(w: World, x: World, s: ServerId, t: TransferId, next: TransferId)
    requires s < |w.servers| && t in w.sent && Settled(w, x, s, t) && !IsCommitted(w, t) && !x.servers[s].draining
    requires next in x.sent && x.sent[next].target == s
    ensures Enabled(x, Deliver(s, next, false))
    ensures
      var v := Apply(x, Deliver(s, next, false)).servers[s];
      v.staged == Some(next) && v.adopt == Check(next) && v.room == Missing
  {
  }

  // ---------------------------------------------------------------------------------------------
  // The peer: an adoption that nobody disturbs commits

  /** Every fenced key of the transfer still names the source, and its intent is pending. */
  ghost predicate Undisturbed(w: World, t: TransferId) {
    && t in w.sent && IntentIs(w.redis, t, Intent.Pending)
    && forall k :: k in Keys(w.sent[t].members) ==> Names(w.redis, k, w.sent[t].source)
  }

  /** What reading the keys gives; none of them is absent while nobody disturbs the transfer. */
  function Values(redis: Store, keys: seq<Key>): seq<Value> {
    seq(|keys|, i requires 0 <= i < |keys| => if keys[i] in redis then redis[keys[i]] else Other(0))
  }

  lemma GatherOne(w: World, s: ServerId, t: TransferId, n: nat)
    requires s < |w.servers| && Undisturbed(w, t) && n < |Keys(w.sent[t].members)|
    requires w.servers[s].adopt == Gather(t, Values(w.redis, Keys(w.sent[t].members)[..n]))
    ensures Enabled(w, GatherCall(s))
    ensures Apply(w, GatherCall(s))
         == With(w, s, w.servers[s].(adopt := Gather(t, Values(w.redis, Keys(w.sent[t].members)[..n + 1]))))
  {
    var keys := Keys(w.sent[t].members);
    assert keys[n] in keys;
    assert Values(w.redis, keys[..n + 1]) == Values(w.redis, keys[..n]) + [w.redis[keys[n]]];
  }

  /** The reads go through all fenced keys in order. */
  lemma {:induction false} GatherAll(w: World, s: ServerId, t: TransferId, n: nat) returns (run: seq<Label>)
    requires s < |w.servers| && Undisturbed(w, t) && n <= |Keys(w.sent[t].members)|
    requires w.servers[s].adopt == Gather(t, Values(w.redis, Keys(w.sent[t].members)[..n]))
    ensures
      var x := With(w, s, w.servers[s].(adopt := Adopt.Commit(t, Values(w.redis, Keys(w.sent[t].members)))));
      LeadsTo(w, run, x)
    decreases |Keys(w.sent[t].members)| - n
  {
    var keys := Keys(w.sent[t].members);
    if n < |keys| {
      GatherOne(w, s, t, n);
      var y := Apply(w, GatherCall(s));
      var rest := GatherAll(y, s, t, n + 1);
      var x := With(w, s, w.servers[s].(adopt := Adopt.Commit(t, Values(w.redis, keys))));
      assert With(y, s, y.servers[s].(adopt := Adopt.Commit(t, Values(w.redis, keys)))) == x;
      OneMore(w, GatherCall(s), rest, x);
      run := [GatherCall(s)] + rest;
    } else {
      assert keys[..n] == keys;
      OneStep(w, GatherCall(s));
      run := [GatherCall(s)];
    }
  }

  ghost predicate NoneTwice(members: seq<User>) {
    forall i, j :: 0 <= i < j < |members| ==> members[i] != members[j]
  }

  /** The batch of an undisturbed adoption is accepted. */
  lemma BatchAccepted(w: World, s: ServerId, t: TransferId, stamp: nat)
    requires s < |w.servers| && Undisturbed(w, t) && NoneTwice(w.sent[t].members)
    requires w.servers[s].adopt == Adopt.Commit(t, Values(w.redis, Keys(w.sent[t].members)))
    ensures Enabled(w, CommitCall(s, stamp)) && BatchApplies(w, w.servers[s], CommitCall(s, stamp))
  {
    var keys := Keys(w.sent[t].members);
    var batch := Batch(t, w.sent[t], w.servers[s].adopt.seen, stamp);
    forall i, j | 0 <= i < j < |batch| ensures batch[i].key != batch[j].key {
      assert batch[j].key == keys[j - 1];
      assert i > 0 ==> batch[i].key == keys[i - 1];
    }
    forall i | 0 <= i < |batch| ensures Redis.Lookup(w.redis, batch[i].key) == batch[i].expected {
      if i > 0 {
        assert keys[i - 1] in keys;
      }
    }
  }

  lemma CheckFindsPending(w: World, s: ServerId, t: TransferId)
    requires s < |w.servers| && w.servers[s].adopt == Check(t) && IntentIs(w.redis, t, Intent.Pending)
    ensures Enabled(w, CheckCall(s)) && Apply(w, CheckCall(s)) == With(w, s, w.servers[s].(adopt := Gather(t, [])))
  {
  }

  lemma LiveAtLast(w: World, s: ServerId, t: TransferId)
    requires s < |w.servers| && w.servers[s].adopt == Confirmed(t) && t in w.sent
    ensures Enabled(w, GoLive(s))
    ensures
      var x := Apply(w, GoLive(s));
      && x.redis == w.redis && x.servers[s].room == Held(false, w.sent[t].members)
      && x.servers[s].staged == None && x.servers[s].adopt == Rest
  {
  }

  /**
   An adoption that nobody disturbs succeeds, for every roster: answered calls lead to a world in which the intent is
   committed, the directory and every member's entry name the peer, and the peer has the room with that roster.
   */
  lemma AdoptionSucceeds(w: World, s: ServerId, t: TransferId) returns (run: seq<Label>)
    requires Inv(w) && s < |w.servers| && w.servers[s].staged == Some(t) && w.servers[s].adopt == Check(t)
    requires Undisturbed(w, t) && NoneTwice(w.sent[t].members)
    ensures Takes(w, run)
    ensures
      var x := After(w, run);
      && s < |x.servers| && x.servers[s].room == Held(false, w.sent[t].members)
      && x.servers[s].staged == None && x.servers[s].adopt == Rest
      && IsCommitted(x, t) && forall k :: k in Keys(w.sent[t].members) ==> Names(x.redis, k, s)
  {
    CheckFindsPending(w, s, t);
    var a := Apply(w, CheckCall(s));
    assert Keys(w.sent[t].members)[..0] == [];
    var gathered := GatherAll(a, s, t, 0);
    var b := After(a, gathered);
    StepOk(w, CheckCall(s));
    RunOk(a, gathered);
    var last := CommitAndLive(b, s, t);
    Joins(a, gathered, b, last);
    OneMore(w, CheckCall(s), gathered + last, After(b, last));
    run := [CheckCall(s)] + (gathered + last);
  }

  lemma CommitAndLive(w: World, s: ServerId, t: TransferId) returns (run: seq<Label>)
    requires Inv(w) && s < |w.servers| && Undisturbed(w, t) && NoneTwice(w.sent[t].members)
    requires w.servers[s].adopt == Adopt.Commit(t, Values(w.redis, Keys(w.sent[t].members)))
    ensures Takes(w, run)
    ensures
      var x := After(w, run);
      && s < |x.servers| && x.servers[s].room == Held(false, w.sent[t].members)
      && x.servers[s].staged == None && x.servers[s].adopt == Rest
      && IsCommitted(x, t) && forall k :: k in Keys(w.sent[t].members) ==> Names(x.redis, k, s)
  {
    var l := CommitCall(s, 0);
    BatchAccepted(w, s, t, 0);
    CommitParties(w, l);
    var y := Apply(w, l);
    LiveAtLast(y, s, t);
    OneStep(y, GoLive(s));
    OneMore(w, l, [GoLive(s)], Apply(y, GoLive(s)));
    run := [l] + [GoLive(s)];
  }

  lemma {:induction false} Joins(w: World, first: seq<Label>, x: World, second: seq<Label>)
    requires LeadsTo(w, first, x) && Takes(x, second)
    ensures LeadsTo(w, first + second, After(x, second))
    decreases |first|
  {
    if first == [] {
      assert first + second == second;
    } else {
      assert (first + second)[1..] == first[1..] + second;
      Joins(Apply(w, first[0]), first[1..], x, second);
    }
  }

  // ---------------------------------------------------------------------------------------------
  // The source: an offer whose calls are answered is sent

  /** A draining server offers a usable room with somebody in it to another server, one transfer at a time. */
  ghost predicate MayOffer(w: World, s: ServerId, t: TransferId, target: ServerId) {
    && s < |w.servers| && target < |w.servers| && target != s && t !in w.issued
    && w.servers[s].draining && w.servers[s].hand == Idle
    && Serving(w.servers[s]) && w.servers[s].room.roster != []
  }

  function Offer(s: ServerId, t: TransferId, target: ServerId): seq<Label> {
    [Freeze(s, t, target), CreateCall(s)] + [CreateReply(s, false), SendCall(s, true)]
  }

  /**
   Freezing a room and having the calls answered puts the transfer on the stream, with its intent pending and the
   roster as it was, and leaves the room frozen until the transfer is settled.
   */
  lemma OfferIsSent(w: World, s: ServerId, t: TransferId, target: ServerId)
    requires MayOffer(w, s, t, target) && IntentKey(t) !in w.redis
    ensures Takes(w, Offer(s, t, target))
    ensures
      var x := After(w, Offer(s, t, target));
      && |x.servers| == |w.servers| && x.servers[s].hand == Wait(t)
      && x.servers[s].room == Held(true, w.servers[s].room.roster)
      && IntentIs(x.redis, t, Intent.Pending)
      && t in x.sent && x.sent[t] == Transfer(s, target, w.servers[s].room.roster)
  {
    var a := Apply(w, Freeze(s, t, target));
    var b := Apply(a, CreateCall(s));
    OfferStarts(w, s, t, target);
    assert b.servers[s].hand == Created(t, target, true) && b.servers[s].room == Held(true, w.servers[s].room.roster);
    OfferEnds(b, s, t, target);
    TwoMore(w, Freeze(s, t, target), CreateCall(s), [CreateReply(s, false), SendCall(s, true)]);
  }

  /** The second half: the intent was created, and the command goes out. */
  lemma OfferEnds(w: World, s: ServerId, t: TransferId, target: ServerId)
    requires s < |w.servers| && w.servers[s].hand == Created(t, target, true) && w.servers[s].room.Held?
    ensures Takes(w, [CreateReply(s, false), SendCall(s, true)])
    ensures
      var x := After(w, [CreateReply(s, false), SendCall(s, true)]);
      && |x.servers| == |w.servers| && x.redis == w.redis
      && x.servers[s].hand == Wait(t) && x.servers[s].room == w.servers[s].room
      && t in x.sent && x.sent[t] == Transfer(s, target, w.servers[s].room.roster)
  {
    var y := With(w, s, w.servers[s].(hand := Send(t, target)));
    assert Apply(w, CreateReply(s, false)) == y;
    OneStep(y, SendCall(s, true));
    OneMore(w, CreateReply(s, false), [SendCall(s, true)], Apply(y, SendCall(s, true)));
    assert [CreateReply(s, false)] + [SendCall(s, true)] == [CreateReply(s, false), SendCall(s, true)];
  }

  lemma OfferStarts(w: World, s: ServerId, t: TransferId, target: ServerId)
    requires MayOffer(w, s, t, target) && IntentKey(t) !in w.redis
    ensures
      && Enabled(w, Freeze(s, t, target))
      && var a := Apply(w, Freeze(s, t, target));
      && a.servers[s].room == Held(true, w.servers[s].room.roster) && a.redis == w.redis && Enabled(a, CreateCall(s))
      && Apply(a, CreateCall(s)).servers[s] == a.servers[s].(hand := Created(t, target, true))
      && Apply(a, CreateCall(s)).redis == w.redis[IntentKey(t) := State(Intent.Pending)]
      && Apply(a, CreateCall(s)).sent == w.sent
  {
  }

  /** When the intent could not be created, or nobody knows, the room is usable again and no transfer was sent. */
  lemma OfferFails(w: World, s: ServerId, lost: bool)
    requires Inv(w) && s < |w.servers|
    requires (w.servers[s].hand.Created? && (lost || !w.servers[s].hand.unique)) || (w.servers[s].hand.Create? && lost)
    ensures Enabled(w, CreateReply(s, lost))
    ensures
      var x := Apply(w, CreateReply(s, lost));
      Serving(x.servers[s]) && x.servers[s].room.roster == w.servers[s].room.roster && x.sent == w.sent
      && x.servers[s].hand == Idle
  {
    assert ServerOk(w, s);
  }

  // ---------------------------------------------------------------------------------------------
  // Members come and go

  lemma {:induction false} WithoutIs(roster: seq<User>, user: User)
    ensures forall u :: u in Without(roster, user) <==> u in roster && u != user
    decreases |roster|
  {
    if roster != [] {
      WithoutIs(roster[1..], user);
      assert roster == [roster[0]] + roster[1..];
    }
  }

  /** A member that joins is in the roster and its entry names the server; one that leaves is not, and others stay. */
  lemma RosterFollows(w: World, s: ServerId, user: User, stamp: nat)
    requires s < |w.servers| && Serving(w.servers[s])
    ensures user !in w.servers[s].room.roster && w.servers[s].publish == Quiet ==>
      && Enabled(w, Join(s, user, stamp))
      && Apply(w, Join(s, user, stamp)).servers[s].room == Held(false, w.servers[s].room.roster + [user])
      && Apply(w, Join(s, user, stamp)).redis == w.redis[ClaimKey(user) := Owned(s, stamp)]
    ensures Enabled(w, Leave(s, user))
    ensures
      var room := Apply(w, Leave(s, user)).servers[s].room;
      room.Held? && !room.frozen && forall u :: u in room.roster <==> u in w.servers[s].room.roster && u != user
  {
    WithoutIs(w.servers[s].room.roster, user);
  }

  // ---------------------------------------------------------------------------------------------
  // The publish loop: what one round over a key does when its calls are answered

  function Looking(s: ServerId, key: Key, purpose: Purpose): seq<Label> {
    [PublishStart(s, key, purpose), PublishLook(s)]
  }

  function Writing(s: ServerId, stamp: nat, joined: bool): seq<Label> {
    [PublishReply(s, stamp, false, joined), PublishWrite(s, stamp)]
  }

  function Round(s: ServerId, key: Key, purpose: Purpose, stamp: nat, joined: bool): seq<Label> {
    Looking(s, key, purpose) + Writing(s, stamp, joined)
  }

  /** The key belongs to the room as the server has it: a captured projection, or a member's entry. */
  ghost predicate Belongs(v: Server, key: Key) {
    match key
    case IntentKey(_) => false
    case DirectoryKey => v.projected
    case ClaimKey(user) => v.room.Held? && user in v.room.roster
  }

  /** Between two rounds the loop refreshes the keys that belong to the room and removes the others. */
  ghost predicate MayRound(w: World, s: ServerId, key: Key, purpose: Purpose) {
    && s < |w.servers| && w.servers[s].publish == Quiet && !key.IntentKey?
    && (purpose == Refresh <==> Belongs(w.servers[s], key))
  }

  /** At the start of a round the loop captures whether there is a room to project. */
  lemma ProjectionIsCaptured(w: World, s: ServerId)
    requires s < |w.servers| && w.servers[s].publish == Quiet
    ensures Enabled(w, Project(s))
    ensures
      var x := Apply(w, Project(s));
      x.redis == w.redis && x.servers[s] == w.servers[s].(projected := w.servers[s].room.Held?)
  {
  }

  lemma StartIsLook(w: World, s: ServerId, key: Key, purpose: Purpose)
    requires MayRound(w, s, key, purpose)
    ensures Apply(w, PublishStart(s, key, purpose)) == With(w, s, w.servers[s].(publish := Look(key, purpose)))
  {
  }

  lemma LookIsLooked(w: World, s: ServerId, key: Key, purpose: Purpose)
    requires s < |w.servers| && w.servers[s].publish == Look(key, purpose)
    ensures
      Apply(w, PublishLook(s))
      == With(w, s, w.servers[s].(publish := Looked(key, purpose, Redis.Lookup(w.redis, key))))
  {
  }

  /** The first half of a round reads the key. */
  lemma LookIsTaken(w: World, s: ServerId, key: Key, purpose: Purpose)
    requires MayRound(w, s, key, purpose)
    ensures
      var looked := Looked(key, purpose, Redis.Lookup(w.redis, key));
      LeadsTo(w, Looking(s, key, purpose), With(w, s, w.servers[s].(publish := looked)))
  {
    var y := With(w, s, w.servers[s].(publish := Look(key, purpose)));
    var x := With(w, s, w.servers[s].(publish := Looked(key, purpose, Redis.Lookup(w.redis, key))));
    StartIsLook(w, s, key, purpose);
    LookIsLooked(y, s, key, purpose);
    OneStep(y, PublishLook(s));
    OneMore(w, PublishStart(s, key, purpose), [PublishLook(s)], x);
    assert [PublishStart(s, key, purpose)] + [PublishLook(s)] == Looking(s, key, purpose);
  }

  lemma WriteApplies(w: World, s: ServerId, stamp: nat)
    requires s < |w.servers|
    requires w.servers[s].publish.Set? || w.servers[s].publish.Swap? || w.servers[s].publish.Drop?
    ensures Enabled(w, PublishWrite(s, stamp))
    ensures
      var write := w.servers[s].publish;
      Apply(w, PublishWrite(s, stamp)).redis
      == if TakesEffect(w.redis, write) then Wrote(w.redis, write, s, stamp) else w.redis
  {
  }

  /** The second half writes what the reply asks for. */
  lemma ReplyIsWritten(w: World, s: ServerId, stamp: nat, joined: bool, write: Publish)
    requires s < |w.servers| && w.servers[s].publish.Looked? && (write.Set? || write.Swap? || write.Drop?)
    requires write == Replied(w.servers[s], s, stamp, false, joined)
    ensures
      var run := Writing(s, stamp, joined);
      && Takes(w, run)
      && After(w, run).redis == if TakesEffect(w.redis, write) then Wrote(w.redis, write, s, stamp) else w.redis
  {
    var y := With(w, s, w.servers[s].(publish := write));
    var reply := PublishReply(s, stamp, false, joined);
    assert Apply(w, reply) == y;
    WriteApplies(y, s, stamp);
    OneStep(y, PublishWrite(s, stamp));
    OneMore(w, reply, [PublishWrite(s, stamp)], Apply(y, PublishWrite(s, stamp)));
    assert [reply] + [PublishWrite(s, stamp)] == Writing(s, stamp, joined);
  }

  /** A round that comes to a write takes it from the value that was read. */
  lemma RoundWrites(w: World, s: ServerId, key: Key, purpose: Purpose, stamp: nat, joined: bool, write: Publish)
    requires MayRound(w, s, key, purpose) && (write.Set? || write.Swap? || write.Drop?)
    requires
      var value := Redis.Lookup(w.redis, key);
      write == Replied(w.servers[s].(publish := Looked(key, purpose, value)), s, stamp, false, joined)
    ensures Takes(w, Round(s, key, purpose, stamp, joined))
    ensures
      After(w, Round(s, key, purpose, stamp, joined)).redis
      == if TakesEffect(w.redis, write) then Wrote(w.redis, write, s, stamp) else w.redis
  {
    var b := With(w, s, w.servers[s].(publish := Looked(key, purpose, Redis.Lookup(w.redis, key))));
    LookIsTaken(w, s, key, purpose);
    ReplyIsWritten(b, s, stamp, joined, write);
    Joins(w, Looking(s, key, purpose), b, Writing(s, stamp, joined));
  }

  function Wrote(redis: Store, write: Publish, s: ServerId, stamp: nat): Store
    requires write.Set? || write.Swap? || write.Drop?
  {
    match write
    case Set(key, _) => redis[key := Owned(s, stamp)]
    case Swap(key, _, update) => redis[key := update]
    case Drop(key, _) => redis - {key}
  }

  /** A key of a room in service that expired names the server again. */
  lemma ExpiredComesBack(w: World, s: ServerId, key: Key, stamp: nat)
    requires MayRound(w, s, key, Refresh) && Serving(w.servers[s]) && key !in w.redis
    ensures
      var run := Round(s, key, Refresh, stamp, true);
      Takes(w, run) && After(w, run).redis == w.redis[key := Owned(s, stamp)]
  {
    RoundWrites(w, s, key, Refresh, stamp, true, Set(key, false));
  }

  /** The directory's own entry is renewed, and a member's own entry stays as it is. */
  lemma OwnIsRenewed(w: World, s: ServerId, key: Key, stamp: nat, joined: bool)
    requires MayRound(w, s, key, Refresh) && Names(w.redis, key, s)
    ensures
      var run := Round(s, key, Refresh, stamp, joined);
      && Takes(w, run)
      && After(w, run).redis == w.redis[key := if key.DirectoryKey? then Owned(s, stamp) else w.redis[key]]
  {
    RoundWrites(w, s, key, Refresh, stamp, joined,
                Swap(key, w.redis[key], if key.DirectoryKey? then Owned(s, stamp) else w.redis[key]));
  }

  /** What the server no longer publishes, and what it released, is removed if it is still its own. */
  lemma OwnIsRemoved(w: World, s: ServerId, key: Key, stamp: nat)
    requires MayRound(w, s, key, Remove) && Names(w.redis, key, s)
    ensures
      var run := Round(s, key, Remove, stamp, false);
      Takes(w, run) && After(w, run).redis == w.redis - {key}
  {
    RoundWrites(w, s, key, Remove, stamp, false, Drop(key, w.redis[key]));
  }
}
