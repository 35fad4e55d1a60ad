/** What the invariant means for every run of the hand-off protocol. */
module HandOffSafety {
  import opened Wrappers
  import opened HandOff
  import opened HandOffInvariant
  import Redis

  // ---------------------------------------------------------------------------------------------
  // Who has the room

  /** The server will be the one to use the room: it has it uncommitted, or staged with the commit done. */
  ghost predicate Holds(w: World, v: Server) {
    || (v.room.Held? && (!v.hand.Idle? ==> !IsCommitted(w, v.hand.id)))
    || (v.staged.Some? && IsCommitted(w, v.staged.value))
  }

  /** The room is neither lost nor doubled: after any run exactly one server holds it. */
  lemma ExactlyOneHolder(w: World, run: seq<Label>)
    requires Init(w) && Takes(w, run)
    ensures
      var x := After(w, run);
      && x.owner < |x.servers|
      && forall s :: 0 <= s < |x.servers| ==> (Holds(x, x.servers[s]) <==> s == x.owner)
  {
    InitOk(w);
    RunOk(w, run);
    var x := After(w, run);
    forall s | 0 <= s < |x.servers| ensures Holds(x, x.servers[s]) <==> s == x.owner {
      assert ServerOk(x, s);
    }
  }

  /** At most one server has the room live, and it is the holder. */
  lemma AtMostOneServing(w: World, run: seq<Label>, s: ServerId, r: ServerId)
    requires Init(w) && Takes(w, run)
    requires s < |After(w, run).servers| && Serving(After(w, run).servers[s])
    requires r < |After(w, run).servers| && Serving(After(w, run).servers[r])
    ensures s == r == After(w, run).owner
  {
    InitOk(w);
    RunOk(w, run);
    assert ServerOk(After(w, run), s) && ServerOk(After(w, run), r);
  }

  // ---------------------------------------------------------------------------------------------
  // The intent decides

  lemma IntentFinalStep(w: World, l: Label, t: TransferId, i: Intent)
    requires Inv(w) && Enabled(w, l) && i != Intent.Pending && IntentIs(w.redis, t, i)
    ensures IntentIs(Apply(w, l).redis, t, i)
  {
    if l.CommitCall? && BatchApplies(w, w.servers[l.s], l) {
      BatchCommits(w, l);
    } else if l.PublishWrite? {
      assert ServerOk(w, l.s);
    }
  }

  /** Once an intent has left `Pending` no run changes it. */
  lemma {:induction false} IntentFinal(w: World, run: seq<Label>, t: TransferId, i: Intent)
    requires Inv(w) && Takes(w, run) && i != Intent.Pending && IntentIs(w.redis, t, i)
    ensures IntentIs(After(w, run).redis, t, i)
    decreases |run|
  {
    if run != [] {
      StepOk(w, run[0]);
      IntentFinalStep(w, run[0], t, i);
      IntentFinal(Apply(w, run[0]), run[1..], t, i);
    }
  }

  /**
   Every way a room can change hands on one server: it thaws only when its transfer was cancelled or no
   command was ever sent, it is released only when the transfer was committed, it goes live on the peer only
   when the transfer was committed, and a staged room is discarded only when it was not.
   */
  lemma RoomFollowsIntent(w: World, l: Label, s: ServerId)
    requires Inv(w) && Enabled(w, l) && s < |w.servers|
    ensures Follows(w, w.servers[s], Apply(w, l).servers[s])
  {
    if HasServer(l) && l.s == s {
      if l.SettleReply? || l.CreateReply? {
        SourceFollows(w, l);
      } else if l.GoLive? || l.Resolve? {
        PeerFollows(w, l);
      } else {
        QuietFollows(w, l);
      }
    } else {
      ElsewhereFollows(w, l, s);
    }
  }

  /** Any other step of a server moves its room neither away nor back into service. */
  lemma QuietFollows(w: World, l: Label)
    requires Enabled(w, l) && HasServer(l) && l.s < |w.servers|
    requires !(l.SettleReply? || l.CreateReply? || l.GoLive? || l.Resolve?)
    ensures Follows(w, w.servers[l.s], Apply(w, l).servers[l.s])
  {
  }

  lemma ElsewhereFollows(w: World, l: Label, s: ServerId)
    requires Enabled(w, l) && s < |w.servers| && !(HasServer(l) && l.s == s)
    ensures Follows(w, w.servers[s], Apply(w, l).servers[s])
  {
  }

  ghost predicate Follows(w: World, v: Server, u: Server) {
    && (v.room.Held? && v.room.frozen && Serving(u) ==>
          !v.hand.Idle? && (IntentIs(w.redis, v.hand.id, Intent.Cancelled) || v.hand.id !in w.sent))
    && (v.room.Held? && u.room.Missing? ==> !v.hand.Idle? && v.hand.id in w.sent && IsCommitted(w, v.hand.id))
    && (v.room.Missing? && u.room.Held? ==>
          && v.staged.Some? && v.staged.value in w.sent && IsCommitted(w, v.staged.value)
          && u.room.roster == w.sent[v.staged.value].members)
    && (v.staged.Some? && u.staged != v.staged && u.room.Missing? ==> !IsCommitted(w, v.staged.value))
  }

  lemma SourceFollows(w: World, l: Label)
    requires Inv(w) && Enabled(w, l) && (l.SettleReply? || l.CreateReply?)
    ensures Follows(w, w.servers[l.s], Apply(w, l).servers[l.s])
  {
    assert ServerOk(w, l.s);
    if l.SettleReply? {
      assert IsCommitted(w, w.servers[l.s].hand.id) ==> w.servers[l.s].hand.id in w.sent;
    }
  }

  lemma PeerFollows(w: World, l: Label)
    requires Inv(w) && Enabled(w, l) && (l.GoLive? || l.Resolve?)
    ensures Follows(w, w.servers[l.s], Apply(w, l).servers[l.s])
  {
    assert ServerOk(w, l.s);
  }

  /** The commit takes the roster exactly as the source froze it, from the one server that held the room. */
  lemma CommitMovesTheRoom(w: World, l: Label, t: TransferId)
    requires Inv(w) && Enabled(w, l) && !IsCommitted(w, t) && IsCommitted(Apply(w, l), t)
    ensures CommitsTo(w, Apply(w, l), t)
    ensures
      var tr := w.sent[t];
      && tr.source == w.owner && Apply(w, l).owner == tr.target
      && w.servers[tr.source].room == Held(true, tr.members)
      && w.servers[tr.target].room.Missing? && w.servers[tr.target].staged == Some(t)
  {
    OnlyCommitCommits(w, l, t);
    CommitParties(w, l);
    assert ServerOk(w, l.s) && ServerOk(w, w.owner) && TransferOk(w, t);
  }

  lemma OnlyCommitCommits(w: World, l: Label, t: TransferId)
    requires Inv(w) && Enabled(w, l)
    ensures
      || (l.CommitCall? && BatchApplies(w, w.servers[l.s], l) && w.servers[l.s].adopt.id == t)
      || (IsCommitted(Apply(w, l), t) ==> IsCommitted(w, t))
  {
    if l.PublishWrite? {
      assert ServerOk(w, l.s);
    } else if l.CommitCall? && BatchApplies(w, w.servers[l.s], l) {
      BatchCommits(w, l);
      assert w.servers[l.s].adopt.id != t ==>
          Redis.Lookup(Apply(w, l).redis, IntentKey(t)) == Redis.Lookup(w.redis, IntentKey(t));
    }
  }

  /**
   All or nothing: while a transfer is staged and unfinished, a key that comes to name the target does so in
   the very step that commits, and in that step the directory and every member's claim do.
   */
  lemma AllOrNothing(w: World, l: Label, t: TransferId)
    requires Inv(w) && Enabled(w, l) && t in w.sent && !IsCommitted(w, t)
    requires w.servers[w.sent[t].target].staged == Some(t)
    ensures (exists k: Key :: Names(Apply(w, l).redis, k, w.sent[t].target) && !Names(w.redis, k, w.sent[t].target))
        ==> IsCommitted(Apply(w, l), t)
    ensures IsCommitted(Apply(w, l), t) ==>
        forall k :: k in Keys(w.sent[t].members) ==>
          Names(w.redis, k, w.sent[t].source) && Names(Apply(w, l).redis, k, w.sent[t].target)
  {
    var x, target := Apply(w, l), w.sent[t].target;
    assert TransferOk(w, t) && ServerOk(w, target);
    if IsCommitted(x, t) {
      CommitMovesTheRoom(w, l, t);
    } else {
      OnlyCommitCommits(w, l, t);
      forall k: Key ensures Names(x.redis, k, target) ==> Names(w.redis, k, target) {
        NamedOnlyByItself(w, l, k, target);
        if l.CommitCall? && l.s == target && BatchApplies(w, w.servers[l.s], l) {
          BatchCommits(w, l);
        }
      }
    }
  }

  /** A commit makes keys name the server that commits. */
  lemma NamedByCommit(w: World, l: Label, k: Key, s: ServerId)
    requires Inv(w) && Enabled(w, l) && l.CommitCall? && BatchApplies(w, w.servers[l.s], l)
    ensures Names(Apply(w, l).redis, k, s) ==> Names(w.redis, k, s) || l.s == s
  {
    CommitParties(w, l);
    if k == IntentKey(w.servers[l.s].adopt.id) || k in Keys(w.sent[w.servers[l.s].adopt.id].members) {
    } else {
      assert Redis.Lookup(Apply(w, l).redis, k) == Redis.Lookup(w.redis, k);
    }
  }

  lemma NamedByWrite(w: World, l: Label, k: Key, s: ServerId)
    requires Inv(w) && Enabled(w, l) && l.PublishWrite?
    ensures Names(Apply(w, l).redis, k, s) ==>
      || Names(w.redis, k, s)
      || (l.s == s && w.servers[s].publish.Set? && w.servers[s].publish.key == k && k !in w.redis)
  {
    assert ServerOk(w, l.s);
  }

  lemma NamedByOthers(w: World, l: Label, k: Key, s: ServerId)
    requires Inv(w) && Enabled(w, l) && !l.PublishWrite? && !(l.CommitCall? && BatchApplies(w, w.servers[l.s], l))
    ensures Names(Apply(w, l).redis, k, s) ==>
      Names(w.redis, k, s) || (l.Join? && l.s == s && Serving(w.servers[s]) && k == ClaimKey(l.user))
  {
    if HasServer(l) {
      assert ServerOk(w, l.s);
    }
  }

  /** Apart from commits, a key comes to name a server only by that server's own join or publish write. */
  lemma NamedOnlyByItself(w: World, l: Label, k: Key, s: ServerId)
    requires Inv(w) && Enabled(w, l)
    ensures Names(Apply(w, l).redis, k, s) ==>
      || Names(w.redis, k, s)
      || (l.CommitCall? && l.s == s && BatchApplies(w, w.servers[l.s], l))
      || (l.Join? && l.s == s && Serving(w.servers[s]) && k == ClaimKey(l.user))
      || (l.PublishWrite? && l.s == s && w.servers[s].publish.Set? && w.servers[s].publish.key == k && k !in w.redis)
  {
    if l.CommitCall? && BatchApplies(w, w.servers[l.s], l) {
      NamedByCommit(w, l, k, s);
    } else if l.PublishWrite? {
      NamedByWrite(w, l, k, s);
    } else {
      NamedByOthers(w, l, k, s);
    }
  }

  // ---------------------------------------------------------------------------------------------
  // What was given away stays away

  /**
   After any run, a key moved by a committed transfer does not name its source: claims never, the directory
   only when a stray set-if-absent took effect.
   */
  lemma GivenAwayForGood(w: World, run: seq<Label>, t: TransferId, k: Key)
    requires Init(w) && Takes(w, run)
    requires t in After(w, run).sent && IsCommitted(After(w, run), t) && k in Keys(After(w, run).sent[t].members)
    requires Names(After(w, run).redis, k, After(w, run).sent[t].source)
    ensures k == DirectoryKey && After(w, run).stray
  {
    InitOk(w);
    RunOk(w, run);
    assert TransferOk(After(w, run), t);
  }

  /** No write of a server's publish loop removes or overwrites an entry that names somebody else. */
  lemma PublishSparesOthers(w: World, l: Label, k: Key, r: ServerId)
    requires Inv(w) && Enabled(w, l) && l.PublishWrite? && r != l.s && Names(w.redis, k, r)
    ensures Redis.Lookup(Apply(w, l).redis, k) == Redis.Lookup(w.redis, k)
  {
    assert ServerOk(w, l.s);
  }

  // ---------------------------------------------------------------------------------------------
  // The directory, exactly

  /** The directory names nobody but the holder. */
  ghost predicate DirectoryOk(w: World) {
    forall s :: Names(w.redis, DirectoryKey, s) ==> s == w.owner
  }

  /** One step spoils the directory exactly when it is a stray write. */
  lemma DirectoryStep(w: World, l: Label)
    requires Inv(w) && Enabled(w, l) && DirectoryOk(w)
    ensures DirectoryOk(Apply(w, l)) <==> !StrayWrite(w, l)
  {
    var x := Apply(w, l);
    if HasServer(l) {
      assert ServerOk(w, l.s);
    }
    if StrayWrite(w, l) {
      assert ServerOk(w, w.owner);
      assert Names(x.redis, DirectoryKey, l.s);
    } else if l.CommitCall? && BatchApplies(w, w.servers[l.s], l) {
      CommitParties(w, l);
      var t := w.servers[l.s].adopt.id;
      assert Keys(w.sent[t].members)[0] == DirectoryKey;
      assert Names(x.redis, DirectoryKey, l.s);
    } else {
      forall s: ServerId | Names(x.redis, DirectoryKey, s) ensures s == x.owner {
        NamedOnlyByItself(w, l, DirectoryKey, s);
      }
    }
  }

  ghost predicate DirectoryOkThroughout(w: World, run: seq<Label>)
    requires Takes(w, run)
    decreases |run|
  {
    DirectoryOk(w) && (run != [] ==> DirectoryOkThroughout(Apply(w, run[0]), run[1..]))
  }

  ghost predicate NoStrayWrite(w: World, run: seq<Label>)
    requires Takes(w, run)
    decreases |run|
  {
    run != [] ==> !StrayWrite(w, run[0]) && NoStrayWrite(Apply(w, run[0]), run[1..])
  }

  /** Over a whole run the directory names only the holder if and only if no stray write happens in it. */
  lemma {:induction false} DirectoryExact(w: World, run: seq<Label>)
    requires Inv(w) && Takes(w, run) && DirectoryOk(w)
    ensures DirectoryOkThroughout(w, run) <==> NoStrayWrite(w, run)
    decreases |run|
  {
    if run != [] {
      StepOk(w, run[0]);
      DirectoryStep(w, run[0]);
      var x := Apply(w, run[0]);
      if DirectoryOk(x) {
        DirectoryExact(x, run[1..]);
      } else {
        // the rest of the run starts with a wrong directory
        assert !DirectoryOkThroughout(x, run[1..]);
      }
    }
  }

  /** The branch that goes wrong: the key was read as absent and `rooms.get` finds no room to ask `handingOff`. */
  ghost predicate BlindBranch(w: World, l: Label)
    requires Enabled(w, l)
  {
    && l.PublishReply? && w.servers[l.s].room.Missing?
    && w.servers[l.s].publish == Looked(DirectoryKey, Refresh, None)
  }

  ghost predicate NoBlindBranch(w: World, run: seq<Label>)
    requires Takes(w, run)
    decreases |run|
  {
    run != [] ==> !BlindBranch(w, run[0]) && NoBlindBranch(Apply(w, run[0]), run[1..])
  }

  ghost predicate NothingStray(w: World) {
    forall s :: 0 <= s < |w.servers| ==> w.servers[s].publish != Set(DirectoryKey, true)
  }

  /** The stray write is prepared by a publish reply or not at all. */
  lemma NothingPrepared(w: World, l: Label, s: ServerId)
    requires Enabled(w, l) && s < |w.servers| && !l.PublishReply? && w.servers[s].publish != Set(DirectoryKey, true)
    ensures Apply(w, l).servers[s].publish != Set(DirectoryKey, true)
  {
  }

  lemma NothingStrayStep(w: World, l: Label)
    requires Enabled(w, l) && NothingStray(w) && !BlindBranch(w, l)
    ensures NothingStray(Apply(w, l)) && !StrayWrite(w, l)
  {
    var x := Apply(w, l);
    if l.PublishReply? {
      assert x.servers[l.s].publish == Replied(w.servers[l.s], l.s, l.stamp, l.matches, l.joined);
      assert x.servers[l.s].publish != Set(DirectoryKey, true);
    } else {
      forall s | 0 <= s < |x.servers| ensures x.servers[s].publish != Set(DirectoryKey, true) {
        NothingPrepared(w, l, s);
      }
    }
  }

  /** A run that never takes the blind branch never spoils the directory, whatever expires in between. */
  lemma {:induction false} GuardSuffices(w: World, run: seq<Label>)
    requires Inv(w) && Takes(w, run) && DirectoryOk(w) && NothingStray(w) && NoBlindBranch(w, run)
    ensures DirectoryOkThroughout(w, run)
    decreases |run|
  {
    if run != [] {
      var x := Apply(w, run[0]);
      StepOk(w, run[0]);
      DirectoryStep(w, run[0]);
      NothingStrayStep(w, run[0]);
      GuardSuffices(x, run[1..]);
    }
  }

  // ---------------------------------------------------------------------------------------------
  // Runs as reachability, and the settle attempt step by step

  ghost predicate Reaches(w: World, x: World) {
    exists run :: Takes(w, run) && After(w, run) == x
  }

  lemma {:induction false} Extend(w: World, run: seq<Label>, l: Label)
    requires Takes(w, run) && Enabled(After(w, run), l)
    ensures Takes(w, run + [l]) && After(w, run + [l]) == Apply(After(w, run), l)
    decreases |run|
  {
    if run == [] {
      assert [l][1..] == [];
      assert After(Apply(w, l), []) == Apply(w, l);
    } else {
      assert (run + [l])[1..] == run[1..] + [l];
      Extend(Apply(w, run[0]), run[1..], l);
    }
  }

  lemma ReachesNext(w: World, x: World, l: Label)
    requires Reaches(w, x) && Enabled(x, l)
    ensures Reaches(w, Apply(x, l))
  {
    var run :| Takes(w, run) && After(w, run) == x;
    Extend(w, run, l);
  }

  /** `w` with only server `s` changed. */
  function With(w: World, s: ServerId, v: Server): World
    requires s < |w.servers|
  {
    w.(servers := w.servers[s := v])
  }

  lemma CancelTooLate(w: World, s: ServerId)
    requires s < |w.servers| && w.servers[s].hand.Wait? && IsCommitted(w, w.servers[s].hand.id)
    ensures Apply(w, CancelCall(s, true, true)) == With(w, s, w.servers[s].(hand := Read(w.servers[s].hand.id)))
  {
  }

  lemma CancelInTime(w: World, s: ServerId)
    requires s < |w.servers| && w.servers[s].hand.Wait?
    requires HasIntent(w, w.servers[s].hand.id) && !IsCommitted(w, w.servers[s].hand.id)
    ensures
      var t := w.servers[s].hand.id;
      Apply(w, CancelCall(s, true, true))
      == With(w.(redis := w.redis[IntentKey(t) := State(Intent.Cancelled)]), s, w.servers[s].(hand := Read(t)))
  {
    var t := w.servers[s].hand.id;
    var i := w.redis[IntentKey(t)].intent;
    assert w.redis[IntentKey(t)] == State(i) && i != Intent.Committed;
    if i != Intent.Pending {
      assert w.redis[IntentKey(t) := State(Intent.Cancelled)] == w.redis;
    }
  }

  lemma ReadBack(w: World, s: ServerId, i: Intent)
    requires s < |w.servers| && w.servers[s].hand.Read? && IntentIs(w.redis, w.servers[s].hand.id, i)
    ensures Apply(w, ReadCall(s)) == With(w, s, w.servers[s].(hand := Seen(w.servers[s].hand.id, Some(State(i)))))
  {
  }

  lemma Resumed(w: World, s: ServerId)
    requires s < |w.servers| && w.servers[s].hand.Seen? && w.servers[s].hand.value == Some(State(Intent.Cancelled))
    requires w.servers[s].room.Held?
    ensures Apply(w, SettleReply(s, false)) == With(w, s, Thawed(w.servers[s]))
  {
  }

  lemma Released(w: World, s: ServerId)
    requires s < |w.servers| && w.servers[s].hand.Seen? && w.servers[s].hand.value == Some(State(Intent.Committed))
    ensures Apply(w, SettleReply(s, false)) == With(w, s, w.servers[s].(room := Missing, hand := Idle))
  {
  }

  /** The settle attempt of a committed transfer changes nothing but the source's memory. */
  // ---------------------------------------------------------------------------------------------
  // A frozen room is never stuck

  function Settle(s: ServerId): seq<Label> {
    [CancelCall(s, true, true), ReadCall(s), SettleReply(s, false)]
  }

  lemma ThreeSteps(w: World, s: ServerId, x: World, y: World, z: World)
    requires Enabled(w, CancelCall(s, true, true)) && Apply(w, CancelCall(s, true, true)) == x
    requires Enabled(x, ReadCall(s)) && Apply(x, ReadCall(s)) == y
    requires Enabled(y, SettleReply(s, false)) && Apply(y, SettleReply(s, false)) == z
    ensures Takes(w, Settle(s)) && After(w, Settle(s)) == z
  {
    assert Takes(z, []) && After(z, []) == z;
    TakesCons(y, SettleReply(s, false), []);
    TakesCons(x, ReadCall(s), [SettleReply(s, false)] + []);
    TakesCons(w, CancelCall(s, true, true), [ReadCall(s)] + ([SettleReply(s, false)] + []));
    assert Settle(s) == [CancelCall(s, true, true)] + ([ReadCall(s)] + ([SettleReply(s, false)] + []));
  }

  lemma TakesCons(w: World, l: Label, run: seq<Label>)
    requires Enabled(w, l) && Takes(Apply(w, l), run)
    ensures Takes(w, [l] + run) && After(w, [l] + run) == After(Apply(w, l), run)
  {
    assert ([l] + run)[1..] == run;
  }

  /** Of a committed transfer a settle attempt releases the room. */
  lemma SettleCommitted(w: World, s: ServerId)
    requires s < |w.servers| && w.servers[s].hand.Wait? && IsCommitted(w, w.servers[s].hand.id)
    ensures Takes(w, Settle(s))
    ensures After(w, Settle(s)) == With(w, s, w.servers[s].(room := Missing, hand := Idle))
  {
    var v, t := w.servers[s], w.servers[s].hand.id;
    CancelTooLate(w, s);
    var x := With(w, s, v.(hand := Read(t)));
    ReadBack(x, s, Intent.Committed);
    var y := With(x, s, v.(hand := Seen(t, Some(State(Intent.Committed)))));
    Released(y, s);
    ThreeSteps(w, s, x, y, With(y, s, v.(room := Missing, hand := Idle)));
    assert With(y, s, v.(room := Missing, hand := Idle)) == With(w, s, v.(room := Missing, hand := Idle));
  }

  /** Of a pending or cancelled one it cancels the intent and thaws the room. */
  lemma SettleCancelled(w: World, s: ServerId)
    requires s < |w.servers| && w.servers[s].hand.Wait? && HandOk(w, s) && !IsCommitted(w, w.servers[s].hand.id)
    ensures Takes(w, Settle(s))
    ensures
      var t := w.servers[s].hand.id;
      After(w, Settle(s)) == With(w.(redis := w.redis[IntentKey(t) := State(Intent.Cancelled)]), s,
          Thawed(w.servers[s]))
  {
    var v, t := w.servers[s], w.servers[s].hand.id;
    CancelInTime(w, s);
    var x := With(w.(redis := w.redis[IntentKey(t) := State(Intent.Cancelled)]), s, v.(hand := Read(t)));
    ReadBack(x, s, Intent.Cancelled);
    var y := With(x, s, v.(hand := Seen(t, Some(State(Intent.Cancelled)))));
    Resumed(y, s);
    ThreeSteps(w, s, x, y, With(y, s, Thawed(v)));
  }

  /**
   Whenever a transfer is waiting, one settle attempt whose three calls are answered resolves it: the room
   is released if the peer committed and usable again otherwise, and then the peer can no longer commit.
   */
  lemma SettleResolves(w: World, s: ServerId)
    requires Inv(w) && s < |w.servers| && w.servers[s].hand.Wait?
    ensures Takes(w, Settle(s)) && s < |After(w, Settle(s)).servers|
    ensures
      var x, t := After(w, Settle(s)), w.servers[s].hand.id;
      && x.servers[s].hand.Idle?
      && (if IsCommitted(w, t) then x.servers[s].room.Missing?
          else Serving(x.servers[s]) && IntentIs(x.redis, t, Intent.Cancelled))
  {
    assert ServerOk(w, s);
    if IsCommitted(w, w.servers[s].hand.id) {
      SettleCommitted(w, s);
    } else {
      SettleCancelled(w, s);
    }
  }

  lemma ReleaseReached(w: World, s: ServerId)
    requires s < |w.servers| && w.servers[s].hand.Wait? && IsCommitted(w, w.servers[s].hand.id)
    ensures Reaches(w, With(w, s, w.servers[s].(room := Missing, hand := Idle)))
  {
    SettleCommitted(w, s);
  }

  // ---------------------------------------------------------------------------------------------
  // The directory can go wrong

  lemma DirectoryExpires(w: World)
    ensures Apply(w, Expire(DirectoryKey)) == w.(redis := w.redis - {DirectoryKey})
  {
  }

  lemma LookStarts(w: World, s: ServerId)
    requires s < |w.servers| && w.servers[s].projected && w.servers[s].publish.Quiet?
    ensures Apply(w, PublishStart(s, DirectoryKey, Refresh))
         == With(w, s, w.servers[s].(publish := Look(DirectoryKey, Refresh)))
  {
  }

  lemma LookFindsNothing(w: World, s: ServerId)
    requires s < |w.servers| && w.servers[s].publish == Look(DirectoryKey, Refresh) && DirectoryKey !in w.redis
    ensures Apply(w, PublishLook(s)) == With(w, s, w.servers[s].(publish := Looked(DirectoryKey, Refresh, None)))
  {
  }

  /** With the room gone, `rooms.get(roomId)?.handingOff` is undefined and the loop goes on to set the key. */
  lemma BlindReply(w: World, s: ServerId)
    requires s < |w.servers| && w.servers[s].publish == Looked(DirectoryKey, Refresh, None)
    requires w.servers[s].room.Missing?
    ensures Apply(w, PublishReply(s, 0, false, false)) == With(w, s, w.servers[s].(publish := Set(DirectoryKey, true)))
  {
  }

  /** The key expires and the publish loop comes to the captured projection. */
  lemma LookReached(w: World, x: World, s: ServerId) returns (y: World)
    requires Reaches(w, x) && s < |x.servers|
    requires x.servers[s].projected && x.servers[s].publish.Quiet?
    ensures Reaches(w, y)
        && y == With(x.(redis := x.redis - {DirectoryKey}), s, x.servers[s].(publish := Look(DirectoryKey, Refresh)))
  {
    DirectoryExpires(x);
    ReachesNext(w, x, Expire(DirectoryKey));
    y := x.(redis := x.redis - {DirectoryKey});
    LookStarts(y, s);
    ReachesNext(w, y, PublishStart(s, DirectoryKey, Refresh));
    y := With(y, s, y.servers[s].(publish := Look(DirectoryKey, Refresh)));
  }

  /** The publish loop comes to a captured projection after the room has gone, and finds the key expired. */
  lemma BlindBranchTaken(w: World, x: World, s: ServerId) returns (y: World)
    requires Reaches(w, x) && s < |x.servers|
    requires x.servers[s].projected && x.servers[s].publish.Quiet? && x.servers[s].room.Missing?
    ensures Reaches(w, y) && s < |y.servers|
    ensures y.servers[s].publish == Set(DirectoryKey, true) && DirectoryKey !in y.redis && y.owner == x.owner
  {
    y := LookReached(w, x, s);
    LookFindsNothing(y, s);
    ReachesNext(w, y, PublishLook(s));
    y := With(y, s, y.servers[s].(publish := Looked(DirectoryKey, Refresh, None)));
    BlindReply(y, s);
    ReachesNext(w, y, PublishReply(s, 0, false, false));
    y := With(y, s, y.servers[s].(publish := Set(DirectoryKey, true)));
  }

  /**
   Whenever a source has captured its projections, its transfer has committed and it has not settled yet,
   the directory can come to name it again although the peer holds the room.
   */
  lemma DirectoryCanGoWrong(w: World, s: ServerId) returns (x: World)
    requires Inv(w) && s < |w.servers|
    requires w.servers[s].projected && w.servers[s].publish.Quiet?
    requires w.servers[s].hand.Wait? && IsCommitted(w, w.servers[s].hand.id)
    ensures Reaches(w, x)
    ensures s != w.owner == x.owner && Names(x.redis, DirectoryKey, s) && !DirectoryOk(x)
  {
    assert ServerOk(w, s);
    ReleaseReached(w, s);
    var y := BlindBranchTaken(w, With(w, s, w.servers[s].(room := Missing, hand := Idle)), s);
    ReachesNext(w, y, PublishWrite(s, 0));
    x := Apply(y, PublishWrite(s, 0));
    assert Names(x.redis, DirectoryKey, s);
  }
}
