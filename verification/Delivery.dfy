/**
 What the frames of a whole match do to each viewer's map (server-game/src/game/game-session.ts:291-319), for every
 way the room names its targets, spectators that go away and come back included.
 */
module Delivery {
  import opened Wrappers
  import opened Tiles
  import opened Snapshots
  import opened Replay
  import opened GameSession

  /** The turn of a viewer in a publish. */
  function TurnOf(targets: seq<Target>, p: nat): (turn: Option<Target>)
    ensures turn.Some? <==> p in Ids(targets)
    ensures turn.Some? ==> turn.value.playerId == p && turn.value in targets
    decreases |targets|
  {
    if targets == [] then None
    else
      var front, last := targets[..|targets| - 1], targets[|targets| - 1];
      assert targets == front + [last];
      assert Ids(targets) == Ids(front) + {last.playerId};
      if last.playerId == p then Some(last) else TurnOf(front, p)
  }

  predicate Delivered(s: Session, e: Event, p: nat) {
    e.Publish? && TurnOf(e.targets, p).Some? && !Skips(s, TurnOf(e.targets, p).value)
  }

  predicate DeltaDelivered(s: Session, e: Event, p: nat) {
    Delivered(s, e, p) && !Frame(s, TurnOf(e.targets, p).value).full
  }

  /** The world's grid when the viewer was last sent a frame. */
  function SeenAfter(s: Session, e: Event, p: nat, seen: Grid): Grid {
    if Delivered(s, e, p) then s.tiles else seen
  }

  /** Some tile changed since the grid that was seen, still shows, and no pending change touches it. */
  ghost predicate Missed(seen: Grid, tiles: Grid, pending: seq<Change>) {
    exists x, y :: InGrid(tiles, x, y) && InGrid(seen, x, y) && seen[y][x] != tiles[y][x] && !Touches(pending, x, y)
  }

  /** Every frame of the run that reaches the viewer leaves it with the world's grid. */
  ghost predicate AlwaysRight(s: Session, events: seq<Event>, p: nat)
    decreases |events|
  {
    events != [] ==>
      && (Delivered(s, events[0], p) ==> Screen(Next(s, events[0]), p) == Some(s.tiles))
      && AlwaysRight(Next(s, events[0]), events[1..], p)
  }

  /** No delta of the run goes to the viewer when it has missed a change. */
  ghost predicate NeverMissed(s: Session, events: seq<Event>, p: nat, seen: Grid)
    decreases |events|
  {
    events != [] ==>
      && !(DeltaDelivered(s, events[0], p) && Missed(seen, s.tiles, s.pending))
      && NeverMissed(Next(s, events[0]), events[1..], p, SeenAfter(s, events[0], p, seen))
  }

  /** As long as all its frames were right, a viewer is flagged or shows what it was sent last. */
  ghost predicate Knows(s: Session, p: nat, seen: Grid) {
    && SameShape(seen, s.tiles)
    && ApplyAll(s.base, s.pending) == s.tiles
    && (p in s.needsFull || Screen(s, p) == Some(seen))
  }

  /** A viewer's turn is all a publish does to it. */
  lemma TurnTaken(s: Session, targets: seq<Target>, scene: Scene, p: nat)
    requires OncePerViewer(targets)
    ensures
      var x := Published(s, targets, scene);
      var turn := TurnOf(targets, p);
      var y := if turn.Some? then Served(s, turn.value) else s;
      (p in x.needsFull <==> p in y.needsFull) && SentTo(x, p) == SentTo(y, p)
  {
    var turn := TurnOf(targets, p);
    PublishedIsServed(s, targets, scene, p);
    if turn.Some? {
      var i :| 0 <= i < |targets| && targets[i] == turn.value;
      ServedEach(s, targets, i);
    } else {
      ServedOthers(s, targets, p);
    }
  }

  /** A frame that is sent shows the world unless it is a delta for a viewer that has missed a change. */
  lemma SentShows(s: Session, t: Target, seen: Grid)
    requires Knows(s, t.playerId, seen) && !Skips(s, t)
    ensures Screen(Served(s, t), t.playerId) == Some(s.tiles)
       <==> Frame(s, t).full || !Missed(seen, s.tiles, s.pending)
  {
    if Frame(s, t).full {
      ServedCatchesUp(s, t);
    } else {
      DeltaReachesExactly(s, t);
    }
  }

  lemma PublishShows(s: Session, targets: seq<Target>, scene: Scene, p: nat, seen: Grid)
    requires Knows(s, p, seen) && OncePerViewer(targets)
    ensures
      var e := Event.Publish(targets, scene);
      var x := Published(s, targets, scene);
      && (Delivered(s, e, p) ==>
            (Screen(x, p) == Some(s.tiles) <==> !(DeltaDelivered(s, e, p) && Missed(seen, s.tiles, s.pending))))
      && (!Delivered(s, e, p) || Screen(x, p) == Some(s.tiles) ==> Knows(x, p, SeenAfter(s, e, p, seen)))
  {
    var turn := TurnOf(targets, p);
    if turn.Some? && !Skips(s, turn.value) {
      TurnShows(s, targets, scene, p, seen, turn.value);
    } else {
      NoTurnKnows(s, targets, scene, p, seen);
    }
  }

  lemma TurnShows(s: Session, targets: seq<Target>, scene: Scene, p: nat, seen: Grid, t: Target)
    requires Knows(s, p, seen) && OncePerViewer(targets) && TurnOf(targets, p) == Some(t) && !Skips(s, t)
    ensures
      var x := Published(s, targets, scene);
      && (Screen(x, p) == Some(s.tiles) <==> Frame(s, t).full || !Missed(seen, s.tiles, s.pending))
      && (Screen(x, p) == Some(s.tiles) ==> Knows(x, p, s.tiles))
  {
    TurnTaken(s, targets, scene, p);
    ServedKeeps(s, targets);
    SentShows(s, t, seen);
  }

  lemma NoTurnKnows(s: Session, targets: seq<Target>, scene: Scene, p: nat, seen: Grid)
    requires Knows(s, p, seen) && OncePerViewer(targets)
    requires TurnOf(targets, p).Some? ==> Skips(s, TurnOf(targets, p).value)
    ensures Knows(Published(s, targets, scene), p, seen)
  {
    TurnTaken(s, targets, scene, p);
    ServedKeeps(s, targets);
  }

  lemma OthersKnow(s: Session, e: Event, p: nat, seen: Grid)
    requires Knows(s, p, seen) && !e.Publish?
    ensures Knows(Next(s, e), p, seen)
  {
    if e.Tick? {
      ApplyAppend(s.base, s.pending, e.changes);
    }
  }

  /**
   For every run and viewer: every frame that reaches it leaves it with the world's grid if and only if no delta
   reaches it while a tile has changed since its last frame that the delta does not touch.
   */
  lemma {:induction false} RightExactly(s: Session, events: seq<Event>, end: Session, p: nat, seen: Grid)
    requires Run(s, events, end) && Knows(s, p, seen)
    ensures AlwaysRight(s, events, p) <==> NeverMissed(s, events, p, seen)
    decreases |events|
  {
    if events != [] {
      var e := events[0];
      if e.Publish? {
        PublishShows(s, e.targets, e.scene, p, seen);
      } else {
        OthersKnow(s, e, p, seen);
      }
      if !Delivered(s, e, p) || Screen(Next(s, e), p) == Some(s.tiles) {
        RightExactly(Next(s, e), events[1..], end, p, SeenAfter(s, e, p, seen));
      }
    }
  }

  /** From the start of a match, for all its participants. */
  lemma MatchRightExactly(participants: set<nat>, tiles: Grid, events: seq<Event>, end: Session)
    requires Run(Started(participants, tiles), events, end)
    ensures
      var s := Started(participants, tiles);
      (forall p :: p in participants ==> AlwaysRight(s, events, p))
      <==> (forall p :: p in participants ==> NeverMissed(s, events, p, tiles))
  {
    forall p | p in participants
      ensures AlwaysRight(Started(participants, tiles), events, p)
         <==> NeverMissed(Started(participants, tiles), events, p, tiles)
    {
      RightExactly(Started(participants, tiles), events, end, p, tiles);
    }
  }

  /** A full frame requested for everybody who missed a publish is enough. */
  lemma {:induction false} CarefulIsRight(s: Session, events: seq<Event>, end: Session, p: nat)
    requires Replicating(s) && Run(s, events, end) && CarefulRun(s, events)
    ensures AlwaysRight(s, events, p)
    decreases |events|
  {
    if events != [] {
      var e := events[0];
      NextReplicates(s, e);
      CarefulIsRight(Next(s, e), events[1..], end, p);
      if Delivered(s, e, p) {
        CarefulTurn(s, e, p);
      }
    }
  }

  lemma CarefulTurn(s: Session, e: Event, p: nat)
    requires Replicating(s) && Allowed(s, e) && Careful(s, e) && Delivered(s, e, p)
    ensures Screen(Next(s, e), p) == Some(s.tiles)
  {
    var turn := TurnOf(e.targets, p).value;
    var i :| 0 <= i < |e.targets| && e.targets[i] == turn;
    assert p in Ids(e.targets) && Followed(s, p);
    PublishDelivers(s, e.targets, e.scene, i);
  }

  // ---------------------------------------------------------------------------------------------
  // What a delivered frame and a recorded shot contain

  /** The sections a viewer gets depend on its own flag and its own access, and their content is its own. */
  ghost predicate ServedAs(f: Snapshot, s: Session, t: Target) {
    var flagged := t.playerId in s.needsFull || s.tick <= 1;
    && f.tick == s.tick && (f.full <==> flagged)
    && f.grid == (if flagged then Some(s.tiles) else None)
    && f.tileChanges == (if flagged || s.pending == [] then None else Some(s.pending))
    && Storm in f.sections && Players in f.sections && Regions !in f.sections
    && (Roster in f.sections <==> flagged)
    && (TileAlphas in f.sections <==> t.access == Filtered)
    && (SelfId in f.sections <==> t.access == Filtered)
    && (Cooldowns in f.sections <==> t.access == Filtered && t.self)
    && forall section :: section in f.sections ==> f.sections[section] == t.content(section)
  }

  lemma FrameIsServedAs(s: Session, t: Target)
    ensures ServedAs(Frame(s, t), s, t)
  {
  }

  /** A publish sends each target that is not skipped exactly one frame more, served as its flag and access say. */
  lemma EachIsServedAs(s: Session, targets: seq<Target>, scene: Scene, i: nat)
    requires OncePerViewer(targets) && i < |targets|
    requires !targets[i].behind || targets[i].playerId in s.needsFull || s.tick <= 1
    ensures
      var before, after := SentTo(s, targets[i].playerId), SentTo(Published(s, targets, scene), targets[i].playerId);
      && |after| == |before| + 1 && after[..|before|] == before
      && ServedAs(after[|before|], s, targets[i])
  {
    PublishedIsServed(s, targets, scene, targets[i].playerId);
    ServedEach(s, targets, i);
    FrameIsServedAs(s, targets[i]);
  }

  /** A shot shows the world and the scene of its moment. */
  ghost predicate Shows(shot: Shot, s: Session, scene: Scene, final: bool) {
    && shot.tick == s.tick && shot.tiles == s.tiles && shot.players == scene.players && shot.storm == scene.storm
    && shot.size == scene.size && shot.final == final
  }

  ghost predicate OneShotMore(s: Session, x: Session) {
    |x.shots| == |s.shots| + 1 && x.shots[..|s.shots|] == s.shots
  }

  /** Publishing records one shot of the world while the match runs; a match that ends records a final one. */
  lemma ShotsShow(s: Session, changes: seq<Change>, targets: seq<Target>, scene: Scene)
    requires !s.finished
    ensures
      var x := Published(s, targets, scene);
      OneShotMore(s, x) && Shows(x.shots[|s.shots|], s, scene, false)
    ensures
      var x := Stepped(s, changes, true, scene);
      x.finished && x.tick == s.tick + 1 && OneShotMore(s, x) && Shows(x.shots[|s.shots|], x, scene, true)
    ensures
      var x := EndedByDeparture(s, scene);
      x.finished && OneShotMore(s, x) && Shows(x.shots[|s.shots|], s, scene, true)
    ensures
      var x := Stepped(s, changes, false, scene);
      !x.finished && x.tick == s.tick + 1 && x.shots == s.shots
  {
    ServedKeeps(s, targets);
  }

  /** After the end nothing is recorded any more. */
  lemma NoShotAfterTheEnd(s: Session, changes: seq<Change>, ended: bool, targets: seq<Target>, scene: Scene)
    requires s.finished
    ensures Stepped(s, changes, ended, scene) == s && EndedByDeparture(s, scene) == s
    ensures Published(s, targets, scene).shots == s.shots
  {
    ServedKeeps(s, targets);
  }
}
