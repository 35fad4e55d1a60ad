/** What every step of the hand-off protocol keeps. */
module HandOffInvariant {
  import opened Wrappers
  import opened HandOff
  import Redis

  ghost predicate IsCommitted(w: World, t: TransferId) {
    IntentIs(w.redis, t, Intent.Committed)
  }

  ghost predicate HasIntent(w: World, t: TransferId) {
    IntentKey(t) in w.redis && w.redis[IntentKey(t)].State?
  }

  /** Everything committed by `s` as a source has taken this key away from it. */
  ghost predicate GaveAway(w: World, s: ServerId, key: Key) {
    exists t :: t in w.sent && IsCommitted(w, t) && w.sent[t].source == s && key in Keys(w.sent[t].members)
  }

  ghost predicate Refreshing(p: Publish) {
    match p
    case Quiet => false
    case Look(_, purpose) => purpose == Refresh
    case Looked(_, purpose, _) => purpose == Refresh
    case Drop(_, _) => false
    case _ => true
  }

  /** The server has never held the room: it drew no transfer and publishes nothing about it. */
  ghost predicate Untouched(w: World, s: ServerId)
    requires s < |w.servers|
  {
    && (forall t :: t in w.issued ==> w.issued[t] != s)
    && !w.servers[s].projected
    && !Refreshing(w.servers[s].publish)
  }

  /** A frozen room and an unsettled transfer of this server are the same thing. */
  ghost predicate HandOk(w: World, s: ServerId)
    requires s < |w.servers|
  {
    var v := w.servers[s];
    && (v.room.Missing? ==> v.hand.Idle?)
    && (v.room.Held? ==> (v.room.frozen <==> !v.hand.Idle?))
    && (!v.hand.Idle? ==> v.hand.id in w.issued && w.issued[v.hand.id] == s)
    && (v.hand.Create? || v.hand.Created? || v.hand.Send? ==>
          v.hand.id !in w.sent && v.hand.target < |w.servers| && v.hand.target != s)
    && (v.hand.Wait? || v.hand.Read? || v.hand.Seen? ==>
          v.hand.id in w.sent ==> v.room.Held? && w.sent[v.hand.id].members == v.room.roster)
    && ((v.hand.Created? && v.hand.unique) || v.hand.Send? || v.hand.Wait? || v.hand.Read? || v.hand.Seen? ==>
          HasIntent(w, v.hand.id))
    && (v.hand.Seen? && v.hand.value == Some(State(Intent.Committed)) ==> IsCommitted(w, v.hand.id))
    && (v.hand.Seen? && v.hand.value == Some(State(Intent.Cancelled))
        ==> IntentIs(w.redis, v.hand.id, Intent.Cancelled))
  }

  /** Exactly the owner can ever use the room: everyone else has nothing, or a frozen room already committed away. */
  ghost predicate OwnOk(w: World, s: ServerId)
    requires s < |w.servers|
  {
    var v := w.servers[s];
    if s == w.owner then
      || (v.room.Held? && (!v.hand.Idle? ==> !IsCommitted(w, v.hand.id)))
      || (v.room.Missing? && v.staged.Some? && IsCommitted(w, v.staged.value))
    else
      v.room.Held? ==> !v.hand.Idle? && IsCommitted(w, v.hand.id)
  }

  ghost predicate StagedOk(w: World, s: ServerId)
    requires s < |w.servers|
  {
    var v := w.servers[s];
    && (v.staged.Some? ==>
          && v.room.Missing?
          && v.staged.value in w.sent && w.sent[v.staged.value].target == s
          && (IsCommitted(w, v.staged.value) ==> s == w.owner))
    && (v.room.Missing? && (!v.draining || v.staged.Some?) ==> Untouched(w, s))
  }

  ghost predicate AdoptOk(w: World, s: ServerId)
    requires s < |w.servers|
  {
    var v := w.servers[s];
    && (!v.adopt.Rest? ==> v.staged == Some(v.adopt.id))
    && (v.adopt.Confirmed? ==> IsCommitted(w, v.adopt.id))
    && (v.adopt.Rechecked? ==> (v.adopt.committed <==> IsCommitted(w, v.adopt.id)))
    && (v.adopt.Gather? || v.adopt.Commit? ==> v.adopt.id in w.sent ==>
          && |v.adopt.seen| <= |Keys(w.sent[v.adopt.id].members)|
          && (v.adopt.Commit? ==> |v.adopt.seen| == |Keys(w.sent[v.adopt.id].members)|)
          && forall i :: 0 <= i < |v.adopt.seen| ==>
               v.adopt.seen[i].Owned? && v.adopt.seen[i].server == w.sent[v.adopt.id].source)
  }

  /** No write in flight of the publish loop can bring back a key that was given away. */
  ghost predicate PublishOk(w: World, s: ServerId)
    requires s < |w.servers|
  {
    match w.servers[s].publish
    case Quiet => true
    case Look(key, _) => !key.IntentKey?
    case Looked(key, purpose, value) =>
      && !key.IntentKey?
      && (purpose == Refresh && s == w.owner && Names(w.redis, key, s) ==> value == Some(w.redis[key]))
    case Set(key, gone) =>
      && !key.IntentKey?
      && (s == w.owner ==> !gone && !Names(w.redis, key, s))
      && (s != w.owner && !gone ==> key.ClaimKey? && !GaveAway(w, s, key))
      && (gone ==>
          key.DirectoryKey? && w.servers[s].room.Missing? && w.servers[s].staged.None? && w.servers[s].draining)
    case Swap(key, expected, update) =>
      && !key.IntentKey?
      && (expected.Owned? ==> expected.server == s)
      && (update == expected || (expected.Owned? && update.Owned? && update.server == s))
      && (s == w.owner && Names(w.redis, key, s) ==> expected == w.redis[key])
    case Swapped(key, done) =>
      && !key.IntentKey?
      && (s == w.owner && !done ==> !Names(w.redis, key, s))
    case Drop(key, expected) =>
      !key.IntentKey? && expected.Owned? && expected.server == s
  }

  ghost predicate ServerOk(w: World, s: ServerId)
    requires s < |w.servers|
  {
    HandOk(w, s) && OwnOk(w, s) && StagedOk(w, s) && AdoptOk(w, s) && PublishOk(w, s)
  }

  ghost predicate TransferOk(w: World, t: TransferId)
    requires t in w.sent
  {
    var tr := w.sent[t];
    && tr.source < |w.servers| && tr.target < |w.servers| && tr.source != tr.target
    && t in w.issued && w.issued[t] == tr.source
    && (IntentIs(w.redis, t, Intent.Pending) ==>
          var h := w.servers[tr.source].hand; (h.Wait? || h.Read? || h.Seen?) && h.id == t)
    && (IsCommitted(w, t) ==>
          && tr.source != w.owner
          && (w.servers[tr.target].draining || w.owner == tr.target)
          && forall k :: k in Keys(tr.members) && Names(w.redis, k, tr.source) ==> k.DirectoryKey? && w.stray)
  }

  ghost predicate Inv(w: World) {
    && w.owner < |w.servers|
    && (forall s :: 0 <= s < |w.servers| ==> ServerOk(w, s))
    && (forall t :: t in w.sent ==> TransferOk(w, t))
    && (forall t :: IsCommitted(w, t) ==> t in w.sent)
    && (forall t :: t in w.issued ==> w.issued[t] < |w.servers| && w.servers[w.issued[t]].draining)
  }

  lemma InitOk(w: World)
    requires Init(w)
    ensures Inv(w)
  {
  }

  // ---------------------------------------------------------------------------------------------
  // Every step but the commit concerns one server; these are the ways it may touch what others rely on.

  /** Only server `s` moved, and new transfers are its own. */
  ghost predicate OnlyMoves(w: World, x: World, s: ServerId) {
    && s < |w.servers| == |x.servers|
    && x.owner == w.owner && (w.stray ==> x.stray)
    && (forall r :: 0 <= r < |w.servers| && r != s ==> x.servers[r] == w.servers[r])
    && (w.servers[s].draining ==> x.servers[s].draining)
    && (forall t :: t in w.sent ==> t in x.sent && x.sent[t] == w.sent[t])
    && (forall t :: t in w.issued ==> t in x.issued && x.issued[t] == w.issued[t])
    && (forall t :: t in x.issued && t !in w.issued ==> x.issued[t] == s && x.servers[s].draining)
    && (forall t :: t in x.sent && t !in w.sent ==> t in x.issued && x.issued[t] == s && TransferOk(x, t))
  }

  /** No intent was committed, none came back from cancellation, and what is pending is still held by its source. */
  ghost predicate IntentsKept(w: World, x: World, s: ServerId) {
    && s < |x.servers|
    && (forall t :: HasIntent(w, t) ==> HasIntent(x, t))
    && (forall t :: IsCommitted(x, t) <==> IsCommitted(w, t))
    && (forall t :: IntentIs(w.redis, t, Intent.Cancelled) ==> IntentIs(x.redis, t, Intent.Cancelled))
    && (forall t :: t in w.sent && IntentIs(x.redis, t, Intent.Pending) ==>
          && IntentIs(w.redis, t, Intent.Pending)
          && (w.sent[t].source == s ==>
                var h := x.servers[s].hand; (h.Wait? || h.Read? || h.Seen?) && h.id == t))
  }

  /** A fenced key came to name a server only if that server is `s`, which has not given the key away. */
  ghost predicate FencesKept(w: World, x: World, s: ServerId) {
    && (forall k: Key, r: ServerId :: !k.IntentKey? && r != s && Names(x.redis, k, r) ==>
          Names(w.redis, k, r) && x.redis[k] == w.redis[k])
    && (forall k: Key :: !k.IntentKey? && Names(x.redis, k, s) && !Names(w.redis, k, s) && GaveAway(w, s, k) ==>
          k.DirectoryKey? && x.stray)
  }

  ghost predicate OneServer(w: World, x: World, s: ServerId) {
    OnlyMoves(w, x, s) && IntentsKept(w, x, s) && FencesKept(w, x, s)
  }

  lemma OtherServerOk(w: World, x: World, s: ServerId, r: ServerId)
    requires Inv(w) && OneServer(w, x, s) && r < |w.servers| && r != s
    ensures ServerOk(x, r)
  {
    assert ServerOk(w, r);
    forall k | GaveAway(x, r, k) ensures GaveAway(w, r, k) {
      var t :| t in x.sent && IsCommitted(x, t) && x.sent[t].source == r && k in Keys(x.sent[t].members);
      assert t in w.sent;
    }
    if w.servers[r].room.Missing? && (!w.servers[r].draining || w.servers[r].staged.Some?) {
      assert Untouched(w, r);
      assert Untouched(x, r);
    }
  }

  lemma OldTransferOk(w: World, x: World, s: ServerId, t: TransferId)
    requires Inv(w) && OneServer(w, x, s) && t in w.sent
    ensures TransferOk(x, t)
  {
    assert TransferOk(w, t);
    var tr := w.sent[t];
    if IsCommitted(x, t) {
      forall k | k in Keys(tr.members) && Names(x.redis, k, tr.source) ensures k.DirectoryKey? && x.stray {
        if !Names(w.redis, k, tr.source) {
          assert tr.source == s;
          assert GaveAway(w, s, k);
        }
      }
    }
  }

  /** So only the acting server has to be looked at. */
  lemma OneServerOk(w: World, x: World, s: ServerId)
    requires Inv(w) && OneServer(w, x, s) && ServerOk(x, s)
    ensures Inv(x)
  {
    forall r | 0 <= r < |x.servers| ensures ServerOk(x, r) {
      if r != s {
        OtherServerOk(w, x, s, r);
      }
    }
    forall t | t in x.sent ensures TransferOk(x, t) {
      if t in w.sent {
        OldTransferOk(w, x, s, t);
      }
    }
  }

  /** Writing fenced keys leaves every intent as it was. */
  lemma SameIntents(w: World, x: World)
    requires forall t :: Redis.Lookup(x.redis, IntentKey(t)) == Redis.Lookup(w.redis, IntentKey(t))
    ensures forall t, i :: IntentIs(x.redis, t, i) <==> IntentIs(w.redis, t, i)
    ensures forall t :: IsCommitted(x, t) <==> IsCommitted(w, t)
    ensures forall t :: HasIntent(w, t) ==> HasIntent(x, t)
  {
    forall t | HasIntent(w, t) ensures HasIntent(x, t) {
      assert Redis.Lookup(x.redis, IntentKey(t)) == Redis.Lookup(w.redis, IntentKey(t));
    }
  }

  /** Writing an intent that stays uncommitted leaves the acting server in order. */
  lemma SameFences(w: World, x: World, s: ServerId)
    requires Inv(w) && s < |w.servers| && |x.servers| == |w.servers| && w.servers[s].hand.Wait?
    requires x == w.(redis := x.redis, servers := w.servers[s := w.servers[s].(hand := x.servers[s].hand)])
    requires x.servers[s].hand == w.servers[s].hand || x.servers[s].hand == Read(w.servers[s].hand.id)
    requires forall t :: IsCommitted(x, t) <==> IsCommitted(w, t)
    requires forall t :: HasIntent(w, t) ==> HasIntent(x, t)
    requires forall k: Key :: !k.IntentKey? ==> Redis.Lookup(x.redis, k) == Redis.Lookup(w.redis, k)
    ensures ServerOk(x, s)
  {
    assert ServerOk(w, s);
    assert forall k: Key, r: ServerId :: !k.IntentKey? ==> (Names(x.redis, k, r) <==> Names(w.redis, k, r));
    assert forall k :: GaveAway(x, s, k) <==> GaveAway(w, s, k);
  }

  /** The common case: the step changes nothing but the server's own memory and leaves its pending transfer alone. */
  lemma LocalOk(w: World, s: ServerId, v: Server)
    requires Inv(w) && s < |w.servers|
    requires w.servers[s].draining ==> v.draining
    requires v.hand == w.servers[s].hand || (forall t :: t in w.sent && w.sent[t].source == s ==>
                                               IntentIs(w.redis, t, Intent.Pending) ==>
                                                 (v.hand.Wait? || v.hand.Read? || v.hand.Seen?) && v.hand.id == t)
    requires ServerOk(w.(servers := w.servers[s := v]), s)
    ensures Inv(w.(servers := w.servers[s := v]))
  {
    var x := w.(servers := w.servers[s := v]);
    assert ServerOk(w, s);
    forall t | t in w.sent && IntentIs(x.redis, t, Intent.Pending) && w.sent[t].source == s
      ensures (v.hand.Wait? || v.hand.Read? || v.hand.Seen?) && v.hand.id == t
    {
      assert TransferOk(w, t);
    }
    OneServerOk(w, x, s);
  }

  lemma DrainOk(w: World, l: Label)
    requires Inv(w) && Enabled(w, l) && l.Drain?
    ensures Inv(Apply(w, l))
  {
    var x := Apply(w, l);
    assert ServerOk(w, l.s);
    LocalOk(w, l.s, x.servers[l.s]);
  }

  lemma LeaveOk(w: World, l: Label)
    requires Inv(w) && Enabled(w, l) && l.Leave?
    ensures Inv(Apply(w, l))
  {
    var x := Apply(w, l);
    assert ServerOk(w, l.s);
    LocalOk(w, l.s, x.servers[l.s]);
  }

  lemma JoinMoves(w: World, l: Label)
    requires Inv(w) && Enabled(w, l) && l.Join?
    ensures OneServer(w, Apply(w, l), l.s)
  {
    assert ServerOk(w, l.s);
    SameIntents(w, Apply(w, l));
  }

  lemma JoinServer(w: World, l: Label)
    requires Inv(w) && Enabled(w, l) && l.Join?
    ensures ServerOk(Apply(w, l), l.s)
  {
    assert ServerOk(w, l.s);
    SameIntents(w, Apply(w, l));
  }

  lemma JoinOk(w: World, l: Label)
    requires Inv(w) && Enabled(w, l) && l.Join?
    ensures Inv(Apply(w, l))
  {
    JoinMoves(w, l);
    JoinServer(w, l);
    OneServerOk(w, Apply(w, l), l.s);
  }

  lemma FreezeMoves(w: World, l: Label)
    requires Inv(w) && Enabled(w, l) && l.Freeze?
    ensures OneServer(w, Apply(w, l), l.s)
  {
    assert ServerOk(w, l.s);
    assert forall t :: t in w.sent ==> TransferOk(w, t) && t in w.issued;
  }

  lemma FreezeServer(w: World, l: Label)
    requires Inv(w) && Enabled(w, l) && l.Freeze?
    ensures ServerOk(Apply(w, l), l.s)
  {
    assert ServerOk(w, l.s);
    assert forall t :: t in w.sent ==> TransferOk(w, t) && t in w.issued;
  }

  lemma FreezeOk(w: World, l: Label)
    requires Inv(w) && Enabled(w, l) && l.Freeze?
    ensures Inv(Apply(w, l))
  {
    FreezeMoves(w, l);
    FreezeServer(w, l);
    OneServerOk(w, Apply(w, l), l.s);
  }

  lemma CreateCallIntents(w: World, l: Label)
    requires Inv(w) && Enabled(w, l) && l.CreateCall?
    ensures IntentsKept(w, Apply(w, l), l.s)
  {
    assert ServerOk(w, l.s);
    forall t | t in w.sent ensures t != w.servers[l.s].hand.id && TransferOk(w, t) {
    }
  }

  lemma CreateCallMoves(w: World, l: Label)
    requires Inv(w) && Enabled(w, l) && l.CreateCall?
    ensures OneServer(w, Apply(w, l), l.s)
  {
    var x := Apply(w, l);
    CreateCallIntents(w, l);
    assert OnlyMoves(w, x, l.s);
    assert FencesKept(w, x, l.s);
  }

  lemma CreateCallServer(w: World, l: Label)
    requires Inv(w) && Enabled(w, l) && l.CreateCall?
    ensures ServerOk(Apply(w, l), l.s)
  {
    assert ServerOk(w, l.s);
  }

  lemma CreateCallOk(w: World, l: Label)
    requires Inv(w) && Enabled(w, l) && l.CreateCall?
    ensures Inv(Apply(w, l))
  {
    CreateCallMoves(w, l);
    CreateCallServer(w, l);
    OneServerOk(w, Apply(w, l), l.s);
  }

  lemma CreateReplyOk(w: World, l: Label)
    requires Inv(w) && Enabled(w, l) && l.CreateReply?
    ensures Inv(Apply(w, l))
  {
    var x := Apply(w, l);
    assert ServerOk(w, l.s);
    LocalOk(w, l.s, x.servers[l.s]);
  }

  lemma SendCallMoves(w: World, l: Label)
    requires Inv(w) && Enabled(w, l) && l.SendCall?
    ensures OneServer(w, Apply(w, l), l.s)
  {
    assert ServerOk(w, l.s);
  }

  lemma SendCallServer(w: World, l: Label)
    requires Inv(w) && Enabled(w, l) && l.SendCall?
    ensures ServerOk(Apply(w, l), l.s)
  {
    assert ServerOk(w, l.s);
  }

  lemma SendCallOk(w: World, l: Label)
    requires Inv(w) && Enabled(w, l) && l.SendCall?
    ensures Inv(Apply(w, l))
  {
    SendCallMoves(w, l);
    SendCallServer(w, l);
    OneServerOk(w, Apply(w, l), l.s);
  }

  lemma CancelCallOk(w: World, l: Label)
    requires Inv(w) && Enabled(w, l) && l.CancelCall?
    ensures Inv(Apply(w, l))
  {
    var x := Apply(w, l);
    assert ServerOk(w, l.s);
    if x.redis == w.redis {
      LocalOk(w, l.s, x.servers[l.s]);
    } else {
      CancelMoves(w, l);
      OneServerOk(w, x, l.s);
    }
  }

  lemma CancelMoves(w: World, l: Label)
    requires Inv(w) && Enabled(w, l) && l.CancelCall? && Apply(w, l).redis != w.redis
    ensures OneServer(w, Apply(w, l), l.s) && ServerOk(Apply(w, l), l.s)
  {
    var x := Apply(w, l);
    CancelKeepsIntents(w, x, l.s, w.servers[l.s].hand.id);
    SameFences(w, x, l.s);
    assert FencesKept(w, x, l.s);
    assert OnlyMoves(w, x, l.s);
  }

  lemma CancelKeepsIntents(w: World, x: World, s: ServerId, t: TransferId)
    requires Inv(w) && s < |w.servers| && |x.servers| == |w.servers|
    requires w.servers[s].hand == Wait(t) && IntentIs(w.redis, t, Intent.Pending)
    requires x.servers[s].hand == Wait(t) || x.servers[s].hand == Read(t)
    requires x.redis == w.redis[IntentKey(t) := State(Intent.Cancelled)]
    ensures IntentsKept(w, x, s)
    ensures forall k: Key :: !k.IntentKey? ==> Redis.Lookup(x.redis, k) == Redis.Lookup(w.redis, k)
  {
    assert forall u :: u != t ==> Redis.Lookup(x.redis, IntentKey(u)) == Redis.Lookup(w.redis, IntentKey(u));
    forall u | u in w.sent && IntentIs(x.redis, u, Intent.Pending) && w.sent[u].source == s
      ensures x.servers[s].hand.id == u
    {
      assert TransferOk(w, u);
    }
  }

  lemma ReadCallOk(w: World, l: Label)
    requires Inv(w) && Enabled(w, l) && l.ReadCall?
    ensures Inv(Apply(w, l))
  {
    var x := Apply(w, l);
    assert ServerOk(w, l.s);
    LocalOk(w, l.s, x.servers[l.s]);
  }

  lemma SettleReplyOk(w: World, l: Label)
    requires Inv(w) && Enabled(w, l) && l.SettleReply?
    ensures Inv(Apply(w, l))
  {
    var x := Apply(w, l);
    assert ServerOk(w, l.s);
    LocalOk(w, l.s, x.servers[l.s]);
  }

  /** A step of the adoption chain that keeps the staged room where it is. */
  lemma AdoptStepOk(w: World, s: ServerId, next: Adopt)
    requires Inv(w) && s < |w.servers|
    requires AdoptOk(w.(servers := w.servers[s := w.servers[s].(adopt := next)]), s)
    ensures Inv(w.(servers := w.servers[s := w.servers[s].(adopt := next)]))
  {
    assert ServerOk(w, s);
    LocalOk(w, s, w.servers[s].(adopt := next));
  }

  /** A room may be staged only on a server that does not hold it, and then nothing was committed to that server. */
  lemma StageOk(w: World, s: ServerId, t: TransferId)
    requires Inv(w) && s < |w.servers| && t in w.sent && w.sent[t].target == s
    requires w.servers[s].room.Missing? && w.servers[s].staged.None? && !w.servers[s].draining
    requires w.servers[s].adopt.Rest?
    ensures Inv(w.(servers := w.servers[s := w.servers[s].(staged := Some(t), adopt := Check(t))]))
  {
    assert ServerOk(w, s) && TransferOk(w, t);
    LocalOk(w, s, w.servers[s].(staged := Some(t), adopt := Check(t)));
  }

  lemma DeliverOk(w: World, l: Label)
    requires Inv(w) && Enabled(w, l) && l.Deliver?
    ensures Inv(Apply(w, l))
  {
    var v := w.servers[l.s];
    if v.staged == Some(l.t) {
      RedeliverOk(w, l);
    } else if v.draining || l.refused || v.room.Held? || v.staged.Some? {
      DeclineOk(w, l);
    } else {
      StageOk(w, l.s, l.t);
    }
  }

  lemma RedeliverOk(w: World, l: Label)
    requires Inv(w) && Enabled(w, l) && l.Deliver? && w.servers[l.s].staged == Some(l.t)
    ensures Inv(Apply(w, l))
  {
    AdoptStepOk(w, l.s, Check(l.t));
  }

  lemma DeclineOk(w: World, l: Label)
    requires Inv(w) && Enabled(w, l) && l.Deliver? && w.servers[l.s].staged != Some(l.t)
    requires
      var v := w.servers[l.s];
      v.draining || l.refused || v.room.Held? || v.staged.Some?
    ensures Apply(w, l) == w
  {
    assert w.servers[l.s := w.servers[l.s]] == w.servers;
  }

  lemma CheckCallOk(w: World, l: Label)
    requires Inv(w) && Enabled(w, l) && l.CheckCall?
    ensures Inv(Apply(w, l))
  {
    assert ServerOk(w, l.s);
    AdoptStepOk(w, l.s, NextServer(w, w.servers[l.s], l).adopt);
  }

  lemma GatherCallOk(w: World, l: Label)
    requires Inv(w) && Enabled(w, l) && l.GatherCall?
    ensures Inv(Apply(w, l))
  {
    assert ServerOk(w, l.s);
    AdoptStepOk(w, l.s, NextServer(w, w.servers[l.s], l).adopt);
  }

  lemma RecheckCallOk(w: World, l: Label)
    requires Inv(w) && Enabled(w, l) && l.RecheckCall?
    ensures Inv(Apply(w, l))
  {
    assert ServerOk(w, l.s);
    AdoptStepOk(w, l.s, NextServer(w, w.servers[l.s], l).adopt);
  }

  lemma AdoptLostOk(w: World, l: Label)
    requires Inv(w) && Enabled(w, l) && l.AdoptLost?
    ensures Inv(Apply(w, l))
  {
    assert ServerOk(w, l.s);
    AdoptStepOk(w, l.s, NextServer(w, w.servers[l.s], l).adopt);
  }

  lemma GoLiveOk(w: World, l: Label)
    requires Inv(w) && Enabled(w, l) && l.GoLive?
    ensures Inv(Apply(w, l))
  {
    var x := Apply(w, l);
    assert ServerOk(w, l.s);
    LocalOk(w, l.s, x.servers[l.s]);
  }

  lemma ResolveOk(w: World, l: Label)
    requires Inv(w) && Enabled(w, l) && l.Resolve?
    ensures Inv(Apply(w, l))
  {
    var x := Apply(w, l);
    assert ServerOk(w, l.s);
    LocalOk(w, l.s, x.servers[l.s]);
  }

  lemma ProjectOk(w: World, l: Label)
    requires Inv(w) && Enabled(w, l) && l.Project?
    ensures Inv(Apply(w, l))
  {
    var x := Apply(w, l);
    assert ServerOk(w, l.s);
    LocalOk(w, l.s, x.servers[l.s]);
  }

  /** A step of the publish loop that writes nothing. */
  lemma PublishStepOk(w: World, s: ServerId, next: Publish)
    requires Inv(w) && s < |w.servers|
    requires PublishOk(w.(servers := w.servers[s := w.servers[s].(publish := next)]), s)
    requires Refreshing(next) ==> Refreshing(w.servers[s].publish) || w.servers[s].projected || w.servers[s].room.Held?
    ensures Inv(w.(servers := w.servers[s := w.servers[s].(publish := next)]))
  {
    assert ServerOk(w, s);
    LocalOk(w, s, w.servers[s].(publish := next));
  }

  lemma PublishStartOk(w: World, l: Label)
    requires Inv(w) && Enabled(w, l) && l.PublishStart?
    ensures Inv(Apply(w, l))
  {
    assert ServerOk(w, l.s);
    PublishStepOk(w, l.s, NextServer(w, w.servers[l.s], l).publish);
  }

  lemma PublishLookOk(w: World, l: Label)
    requires Inv(w) && Enabled(w, l) && l.PublishLook?
    ensures Inv(Apply(w, l))
  {
    assert ServerOk(w, l.s);
    PublishStepOk(w, l.s, NextServer(w, w.servers[l.s], l).publish);
  }

  lemma PublishReplyOk(w: World, l: Label)
    requires Inv(w) && Enabled(w, l) && l.PublishReply?
    ensures Inv(Apply(w, l))
  {
    assert ServerOk(w, l.s);
    PublishStepOk(w, l.s, NextServer(w, w.servers[l.s], l).publish);
  }

  lemma PublishLostOk(w: World, l: Label)
    requires Inv(w) && Enabled(w, l) && l.PublishLost?
    ensures Inv(Apply(w, l))
  {
    assert ServerOk(w, l.s);
    PublishStepOk(w, l.s, NextServer(w, w.servers[l.s], l).publish);
  }

  /** A write to one fenced key, made by the publish loop of `s`. */
  ghost predicate FencedWrite(w: World, x: World, s: ServerId, key: Key)
  {
    && s < |w.servers| == |x.servers|
    && !key.IntentKey?
    && x.servers == w.servers[s := w.servers[s].(publish := x.servers[s].publish)]
    && (Refreshing(x.servers[s].publish) ==> Refreshing(w.servers[s].publish))
    && x.sent == w.sent && x.issued == w.issued && x.owner == w.owner && (w.stray ==> x.stray)
    && (forall k :: k != key ==> Redis.Lookup(x.redis, k) == Redis.Lookup(w.redis, k))
  }

  lemma FencedWriteOk(w: World, x: World, s: ServerId, key: Key)
    requires Inv(w) && FencedWrite(w, x, s, key)
    requires PublishOk(x, s)
    requires forall r :: Names(x.redis, key, r) ==> r == s
    requires Names(x.redis, key, s) && !Names(w.redis, key, s) && GaveAway(w, s, key) ==> key.DirectoryKey? && x.stray
    ensures Inv(x)
  {
    SameIntents(w, x);
    assert ServerOk(w, s);
    forall t | t in w.sent && IntentIs(x.redis, t, Intent.Pending)
      ensures w.sent[t].source == s ==>
        var h := x.servers[s].hand; (h.Wait? || h.Read? || h.Seen?) && h.id == t
    {
      assert TransferOk(w, t);
    }
    forall k: Key, r: ServerId | k != key
      ensures Names(x.redis, k, r) ==> Names(w.redis, k, r) && x.redis[k] == w.redis[k]
    {
      assert Redis.Lookup(x.redis, k) == Redis.Lookup(w.redis, k);
    }
    WriterOk(w, x, s, key);
    OneServerOk(w, x, s);
  }

  lemma WriterOk(w: World, x: World, s: ServerId, key: Key)
    requires Inv(w) && FencedWrite(w, x, s, key)
    requires forall t, i :: IntentIs(x.redis, t, i) <==> IntentIs(w.redis, t, i)
    requires forall t :: HasIntent(w, t) ==> HasIntent(x, t)
    requires PublishOk(x, s)
    // what the loop was doing before no longer matters, except that it was allowed to
    ensures ServerOk(x, s)
  {
    assert ServerOk(w, s);
  }

  /** What each of the three writes does, when it takes effect. */
  ghost predicate WrittenOk(w: World, x: World, s: ServerId, key: Key) {
    && FencedWrite(w, x, s, key) && PublishOk(x, s)
    && (forall r :: Names(x.redis, key, r) ==> r == s)
    && (Names(x.redis, key, s) && !Names(w.redis, key, s) && GaveAway(w, s, key) ==> key.DirectoryKey? && x.stray)
  }

  lemma SetWritten(w: World, s: ServerId, stamp: nat)
    requires s < |w.servers| && PublishOk(w, s)
    requires w.servers[s].publish.Set? && w.servers[s].publish.key !in w.redis
    // nobody who still owns the room has given it away
    requires s == w.owner ==> forall k :: !GaveAway(w, s, k)
    ensures WrittenOk(w, Apply(w, PublishWrite(s, stamp)), s, w.servers[s].publish.key)
  {
  }

  lemma SwapWritten(w: World, s: ServerId, stamp: nat)
    requires s < |w.servers| && PublishOk(w, s)
    requires w.servers[s].publish.Swap?
    requires Redis.Lookup(w.redis, w.servers[s].publish.key) == Some(w.servers[s].publish.expected)
    ensures WrittenOk(w, Apply(w, PublishWrite(s, stamp)), s, w.servers[s].publish.key)
  {
  }

  lemma DropWritten(w: World, s: ServerId, stamp: nat)
    requires s < |w.servers| && PublishOk(w, s)
    requires w.servers[s].publish.Drop?
    requires Redis.Lookup(w.redis, w.servers[s].publish.key) == Some(w.servers[s].publish.expected)
    ensures WrittenOk(w, Apply(w, PublishWrite(s, stamp)), s, w.servers[s].publish.key)
  {
  }

  /** A write that is refused changes nothing but the loop's own position. */
  lemma RefusedOk(w: World, s: ServerId, next: Publish)
    requires Inv(w) && s < |w.servers|
    requires w.servers[s].publish.Set? || w.servers[s].publish.Swap? || w.servers[s].publish.Drop?
    requires next.Quiet? || (w.servers[s].publish.Swap? && next == Swapped(w.servers[s].publish.key, false)
                             && Redis.Lookup(w.redis, next.key) != Some(w.servers[s].publish.expected))
    ensures Inv(w.(servers := w.servers[s := w.servers[s].(publish := next)]))
  {
    assert ServerOk(w, s);
    LocalOk(w, s, w.servers[s].(publish := next));
  }

  lemma EffectOk(w: World, s: ServerId, stamp: nat)
    requires Inv(w) && s < |w.servers| && TakesEffect(w.redis, w.servers[s].publish)
    ensures Inv(Apply(w, PublishWrite(s, stamp)))
  {
    var p := w.servers[s].publish;
    assert ServerOk(w, s);
    if p.Set? {
      forall t | t in w.sent && IsCommitted(w, t) ensures w.sent[t].source != w.owner {
        assert TransferOk(w, t);
      }
      SetWritten(w, s, stamp);
    } else if p.Swap? {
      SwapWritten(w, s, stamp);
    } else {
      DropWritten(w, s, stamp);
    }
    FencedWriteOk(w, Apply(w, PublishWrite(s, stamp)), s, p.key);
  }

  lemma PublishWriteOk(w: World, l: Label)
    requires Inv(w) && Enabled(w, l) && l.PublishWrite?
    ensures Inv(Apply(w, l))
  {
    var p := w.servers[l.s].publish;
    if TakesEffect(w.redis, p) {
      EffectOk(w, l.s, l.stamp);
    } else {
      RefusedOk(w, l.s, if p.Swap? then Swapped(p.key, false) else Quiet);
    }
  }

  // ---------------------------------------------------------------------------------------------
  // The commit

  /** From `w` to `x` the transfer `t` was committed: the intent and every fenced key moved in one step. */
  ghost predicate CommitsTo(w: World, x: World, t: TransferId) {
    && t in w.sent
    && IntentIs(w.redis, t, Intent.Pending) && IsCommitted(x, t)
    && (forall u :: u != t ==> Redis.Lookup(x.redis, IntentKey(u)) == Redis.Lookup(w.redis, IntentKey(u)))
    && (forall k :: k in Keys(w.sent[t].members) ==>
          Names(w.redis, k, w.sent[t].source) && Names(x.redis, k, w.sent[t].target))
    && (forall k: Key :: !k.IntentKey? && k !in Keys(w.sent[t].members) ==>
          Redis.Lookup(x.redis, k) == Redis.Lookup(w.redis, k))
  }

  lemma BatchCommits(w: World, l: Label)
    requires Inv(w) && Enabled(w, l) && l.CommitCall? && BatchApplies(w, w.servers[l.s], l)
    ensures CommitsTo(w, Apply(w, l), w.servers[l.s].adopt.id)
  {
    var v := w.servers[l.s];
    var t := v.adopt.id;
    var tr := w.sent[t];
    var keys := Keys(tr.members);
    var batch := Batch(t, tr, v.adopt.seen, l.stamp);
    var x := Apply(w, l);
    assert ServerOk(w, l.s);
    assert batch[0].key == IntentKey(t);
    Redis.WrittenAt(w.redis, batch, 0);
    forall u | u != t ensures Redis.Lookup(x.redis, IntentKey(u)) == Redis.Lookup(w.redis, IntentKey(u)) {
      Redis.WrittenElsewhere(w.redis, batch, IntentKey(u));
    }
    forall k | k in keys ensures Names(w.redis, k, tr.source) && Names(x.redis, k, tr.target) {
      var i :| 0 <= i < |keys| && keys[i] == k;
      assert batch[i + 1] == Redis.Replacement(k, Some(v.adopt.seen[i]), Owned(tr.target, l.stamp), batch[i + 1].ttlMs);
      Redis.WrittenAt(w.redis, batch, i + 1);
    }
    forall k: Key | !k.IntentKey? && k !in keys ensures Redis.Lookup(x.redis, k) == Redis.Lookup(w.redis, k) {
      forall i | 0 <= i < |batch| ensures batch[i].key != k {
        if i > 0 {
          assert batch[i].key == keys[i - 1];
        }
      }
      Redis.WrittenElsewhere(w.redis, batch, k);
    }
  }

  /** Only the owner can lose a room, and only to a server that never held it. */
  lemma CommitParties(w: World, l: Label)
    requires Inv(w) && Enabled(w, l) && l.CommitCall? && BatchApplies(w, w.servers[l.s], l)
    ensures
      var t := w.servers[l.s].adopt.id;
      && CommitsTo(w, Apply(w, l), t)
      && w.sent[t].source == w.owner && w.sent[t].target == l.s != w.owner
      && w.servers[w.owner].hand.id == t && w.servers[w.owner].room.Held?
      && Untouched(w, l.s) && w.servers[l.s].room.Missing?
      && Apply(w, l) == w.(redis := Apply(w, l).redis, owner := l.s,
                           servers := w.servers[l.s := w.servers[l.s].(adopt := Confirmed(t))])
  {
    BatchCommits(w, l);
    var t := w.servers[l.s].adopt.id;
    assert ServerOk(w, l.s) && TransferOk(w, t);
    assert ServerOk(w, w.sent[t].source);
  }

  lemma CommitServerOk(w: World, l: Label, r: ServerId)
    requires Inv(w) && Enabled(w, l) && l.CommitCall? && BatchApplies(w, w.servers[l.s], l) && r < |w.servers|
    ensures ServerOk(Apply(w, l), r)
  {
    CommitParties(w, l);
    var x, t := Apply(w, l), w.servers[l.s].adopt.id;
    assert ServerOk(w, r);
    assert forall u :: u != t ==> (IsCommitted(x, u) <==> IsCommitted(w, u));
    assert forall u :: HasIntent(w, u) ==> HasIntent(x, u) by {
      forall u | HasIntent(w, u) ensures HasIntent(x, u) {
        assert u != t ==> Redis.Lookup(x.redis, IntentKey(u)) == Redis.Lookup(w.redis, IntentKey(u));
      }
    }
    forall k: Key | !k.IntentKey? && Names(x.redis, k, r) && r != l.s
      ensures Names(w.redis, k, r) && x.redis[k] == w.redis[k]
    {
      assert k !in Keys(w.sent[t].members);
      assert Redis.Lookup(x.redis, k) == Redis.Lookup(w.redis, k);
    }
    CommitPublishOk(w, l, r);
  }

  lemma CommitPublishOk(w: World, l: Label, r: ServerId)
    requires Inv(w) && Enabled(w, l) && l.CommitCall? && BatchApplies(w, w.servers[l.s], l) && r < |w.servers|
    ensures PublishOk(Apply(w, l), r)
  {
    CommitParties(w, l);
    var x, t := Apply(w, l), w.servers[l.s].adopt.id;
    var p := w.servers[r].publish;
    assert ServerOk(w, r);
    assert Keys(w.sent[t].members)[0] == DirectoryKey;
    if p.Set? && r != l.s && !p.gone {
      forall u | u in x.sent && IsCommitted(x, u) && x.sent[u].source == r ensures p.key !in Keys(x.sent[u].members) {
        if u != t {
          assert Redis.Lookup(x.redis, IntentKey(u)) == Redis.Lookup(w.redis, IntentKey(u));
          assert TransferOk(w, u);
        }
      }
    }
  }

  lemma CommitTransferOk(w: World, l: Label, u: TransferId)
    requires Inv(w) && Enabled(w, l) && l.CommitCall? && BatchApplies(w, w.servers[l.s], l) && u in w.sent
    ensures TransferOk(Apply(w, l), u)
  {
    CommitParties(w, l);
    var x, t := Apply(w, l), w.servers[l.s].adopt.id;
    var tr := w.sent[u];
    assert TransferOk(w, u) && TransferOk(w, t);
    assert ServerOk(w, w.owner);
    assert u != t ==> Redis.Lookup(x.redis, IntentKey(u)) == Redis.Lookup(w.redis, IntentKey(u));
    forall k | k in Keys(tr.members) && IsCommitted(x, u) && Names(x.redis, k, tr.source)
      ensures k.DirectoryKey? && x.stray
    {
      if k !in Keys(w.sent[t].members) {
        assert Redis.Lookup(x.redis, k) == Redis.Lookup(w.redis, k);
      }
    }
  }

  lemma CommitCallOk(w: World, l: Label)
    requires Inv(w) && Enabled(w, l) && l.CommitCall?
    ensures Inv(Apply(w, l))
  {
    var x, t := Apply(w, l), w.servers[l.s].adopt.id;
    if BatchApplies(w, w.servers[l.s], l) {
      CommitParties(w, l);
      forall r | 0 <= r < |x.servers| ensures ServerOk(x, r) {
        CommitServerOk(w, l, r);
      }
      forall u | u in x.sent ensures TransferOk(x, u) {
        CommitTransferOk(w, l, u);
      }
      forall u | IsCommitted(x, u) ensures u in x.sent {
        assert u != t ==> IsCommitted(w, u);
      }
    } else {
      assert ServerOk(w, l.s);
      LocalOk(w, l.s, x.servers[l.s]);
    }
  }

  lemma EnvironmentOk(w: World, l: Label)
    requires Inv(w) && Enabled(w, l) && (l.Expire? || l.Meddle?)
    ensures Inv(Apply(w, l))
  {
    var x := Apply(w, l);
    var s := w.owner;
    SameIntents(w, x);
    forall t | t in w.sent && IntentIs(x.redis, t, Intent.Pending)
      ensures w.sent[t].source == s ==>
        var h := x.servers[s].hand; (h.Wait? || h.Read? || h.Seen?) && h.id == t
    {
      assert TransferOk(w, t);
    }
    EnvironmentServer(w, l);
    OneServerOk(w, x, s);
  }

  lemma EnvironmentServer(w: World, l: Label)
    requires Inv(w) && Enabled(w, l) && (l.Expire? || l.Meddle?)
    ensures ServerOk(Apply(w, l), w.owner)
  {
    assert ServerOk(w, w.owner);
    SameIntents(w, Apply(w, l));
  }

  /** Every step keeps the invariant. */
  lemma StepOk(w: World, l: Label)
    requires Inv(w) && Enabled(w, l)
    ensures Inv(Apply(w, l))
  {
    match l
    case Drain(_) => DrainOk(w, l);
    case Join(_, _, _) => JoinOk(w, l);
    case Leave(_, _) => LeaveOk(w, l);
    case Expire(_) => EnvironmentOk(w, l);
    case Meddle(_, _) => EnvironmentOk(w, l);
    case Freeze(_, _, _) => FreezeOk(w, l);
    case CreateCall(_) => CreateCallOk(w, l);
    case CreateReply(_, _) => CreateReplyOk(w, l);
    case SendCall(_, _) => SendCallOk(w, l);
    case CancelCall(_, _, _) => CancelCallOk(w, l);
    case ReadCall(_) => ReadCallOk(w, l);
    case SettleReply(_, _) => SettleReplyOk(w, l);
    case Deliver(_, _, _) => DeliverOk(w, l);
    case CheckCall(_) => CheckCallOk(w, l);
    case GatherCall(_) => GatherCallOk(w, l);
    case CommitCall(_, _) => CommitCallOk(w, l);
    case GoLive(_) => GoLiveOk(w, l);
    case RecheckCall(_) => RecheckCallOk(w, l);
    case Resolve(_) => ResolveOk(w, l);
    case AdoptLost(_) => AdoptLostOk(w, l);
    case Project(_) => ProjectOk(w, l);
    case PublishStart(_, _, _) => PublishStartOk(w, l);
    case PublishLook(_) => PublishLookOk(w, l);
    case PublishReply(_, _, _, _) => PublishReplyOk(w, l);
    case PublishWrite(_, _) => PublishWriteOk(w, l);
    case PublishLost(_) => PublishLostOk(w, l);
  }

  lemma {:induction false} RunOk(w: World, run: seq<Label>)
    requires Inv(w) && Takes(w, run)
    ensures Inv(After(w, run))
    decreases |run|
  {
    if run != [] {
      StepOk(w, run[0]);
      RunOk(Apply(w, run[0]), run[1..]);
    }
  }
}
