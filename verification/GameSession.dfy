/**
 One match: server-game/src/game/game-session.ts steps the world, collects tile changes between publishes,
 and sends every viewer a full frame or a delta under backpressure. The same calls feed the recording.
 */
module GameSession {
  import opened Wrappers
  import opened Tiles
  import opened Snapshots
  import opened BufferedSnapshots
  import opened Replay

  /** One connection the room wants served: `behind` when too much is buffered for it. */
  datatype Target = Target(playerId: nat, access: Access, self: bool, behind: bool, content: Section -> Value)

  /**
   `participants` is fixed at the start. The rest of the first line are the session's own fields; the second
   line is history: the grid when pending was last emptied, what each viewer was sent on its present
   connection, who missed a publish, the recorded shots, and whether the match ended outside a tick.
   */
  datatype Session = Session(
    participants: set<nat>, tick: nat, tiles: Grid, pending: seq<Change>, needsFull: set<nat>, finished: bool,
    base: Grid, sent: map<nat, seq<Snapshot>>, away: set<nat>, shots: seq<Shot>, over: bool)

  function Started(participants: set<nat>, tiles: Grid): Session {
    Session(participants, 0, tiles, [], participants, false,
            tiles, map p | p in participants :: [], {}, [], false)
  }

  /** What the world shows of players and storm, and how many bytes a recorded frame of it takes. */
  datatype Scene = Scene(players: Value, storm: Value, size: nat)

  function ShotOf(s: Session, scene: Scene, final: bool): Shot {
    Shot(s.tick, s.tiles, s.pending, scene.players, scene.storm, final, scene.size)
  }

  /** `changes` is what the tick's timeline really changed. */
  function Stepped(s: Session, changes: seq<Change>, ended: bool, scene: Scene): Session {
    if s.finished then s
    else
      var x := s.(tick := s.tick + 1, tiles := ApplyAll(s.tiles, changes), pending := s.pending + changes);
      if ended then x.(finished := true, shots := x.shots + [ShotOf(x, scene, true)]) else x
  }

  function Frame(s: Session, t: Target): Snapshot {
    var full := t.playerId in s.needsFull || s.tick <= 1;
    Built(Viewer(if t.access == Unfiltered then None else Some(t.playerId), t.access, full, t.self),
          s.tick, s.tiles, s.pending, t.content)
  }

  predicate Skips(s: Session, t: Target) {
    !Frame(s, t).full && t.behind
  }

  function SentTo(s: Session, p: nat): seq<Snapshot> {
    if p in s.sent then s.sent[p] else []
  }

  /** One turn of the publish loop. */
  function Served(s: Session, t: Target): Session {
    if Skips(s, t) then s.(needsFull := s.needsFull + {t.playerId})
    else s.(needsFull := s.needsFull - {t.playerId},
        sent := s.sent[t.playerId := SentTo(s, t.playerId) + [Frame(s, t)]])
  }

  function ServedAll(s: Session, targets: seq<Target>): Session
    decreases |targets|
  {
    if targets == [] then s else Served(ServedAll(s, targets[..|targets| - 1]), targets[|targets| - 1])
  }

  function Ids(targets: seq<Target>): set<nat> {
    set i | 0 <= i < |targets| :: targets[i].playerId
  }

  function Published(s: Session, targets: seq<Target>, scene: Scene): Session {
    var x := ServedAll(s, targets);
    var recorded := if s.finished then x else x.(shots := x.shots + [ShotOf(x, scene, false)]);
    recorded.(pending := [], base := s.tiles, away := s.away + s.participants - Ids(targets))
  }

  function Requested(s: Session, p: nat): Session {
    s.(needsFull := s.needsFull + {p})
  }

  /** A departure that ends the match between two ticks. */
  function EndedByDeparture(s: Session, scene: Scene): Session {
    if s.finished then s
    else s.(finished := true, over := true, shots := s.shots + [ShotOf(s, scene, true)], pending := [], base := s.tiles)
  }

  class GameSession {
    const participants: set<nat>
    var tick: nat
    var tiles: Grid
    var pendingTileChanges: seq<Change>
    var needsFullSnapshot: set<nat>
    var finished: bool
    // history
    var base: Grid
    var sent: map<nat, seq<Snapshot>>
    var away: set<nat>
    var shots: seq<Shot>
    var over: bool

    constructor (participants: set<nat>, tiles: Grid)
      ensures Model() == Started(participants, tiles)
    {
      this.participants := participants;
      tick, this.tiles, pendingTileChanges, needsFullSnapshot, finished := 0, tiles, [], participants, false;
      base, sent, away, shots, over := tiles, map p | p in participants :: [], {}, [], false;
    }

    function Model(): Session
      reads this
    {
      Session(participants, tick, tiles, pendingTileChanges, needsFullSnapshot, finished, base, sent, away, shots, over)
    }

    method RequestFullSnapshot(playerId: nat)
      modifies this`needsFullSnapshot
      ensures Model() == Requested(old(Model()), playerId)
    {
      needsFullSnapshot := needsFullSnapshot + {playerId};
    }

    method Step(entries: seq<Change>, ended: bool, scene: Scene) returns (frame: bool, changes: seq<Change>)
      modifies this
      ensures frame <==> !old(finished)
      ensures Model() == Stepped(old(Model()), changes, ended, scene)
      ensures frame ==> tiles == ApplyAll(old(tiles), entries)
      ensures forall c :: c in changes ==> InGrid(old(tiles), c.x, c.y)
    {
      if finished {
        return false, [];
      }
      tick := tick + 1;
      tiles, changes := ApplyTimeline(tiles, entries);
      pendingTileChanges := pendingTileChanges + changes;
      if ended {
        finished := true;
        shots := shots + [Shot(tick, tiles, pendingTileChanges, scene.players, scene.storm, true, scene.size)];
      }
      frame := true;
    }

    method Publish(targets: seq<Target>, scene: Scene)
      modifies this
      ensures Model() == Published(old(Model()), targets, scene)
    {
      var tileChanges := pendingTileChanges;
      var i := 0;
      while i < |targets|
        invariant i <= |targets|
        invariant Model() == ServedAll(old(Model()), targets[..i])
        invariant tileChanges == pendingTileChanges
      {
        assert targets[..i + 1][..i] == targets[..i];
        Serve(targets[i], tileChanges);
        i := i + 1;
      }
      assert targets[..i] == targets;
      if !finished {
        shots := shots + [Shot(tick, tiles, tileChanges, scene.players, scene.storm, false, scene.size)];
      }
      ServedKeeps(old(Model()), targets);
      pendingTileChanges := [];
      base := tiles;
      away := away + participants - Ids(targets);
    }

    /** The body of the publish loop. */
    method Serve(target: Target, tileChanges: seq<Change>)
      requires tileChanges == pendingTileChanges
      modifies this`needsFullSnapshot, this`sent
      ensures Model() == Served(old(Model()), target)
    {
      var full := target.playerId in needsFullSnapshot || tick <= 1;
      needsFullSnapshot := needsFullSnapshot - {target.playerId};
      var playerId := if target.access == Unfiltered then None else Some(target.playerId);
      var viewer := Viewer(playerId, target.access, full, target.self);
      var payload := BuildSnapshot(viewer, tick, tiles, tileChanges, target.content);
      if !full && target.behind {
        needsFullSnapshot := needsFullSnapshot + {target.playerId};
        return;
      }
      sent := sent[target.playerId := (if target.playerId in sent then sent[target.playerId] else []) + [payload]];
    }

    method EliminateDisconnected(ended: bool, scene: Scene)
      modifies this
      ensures Model() == if ended then EndedByDeparture(old(Model()), scene) else old(Model())
    {
      if finished || !ended {
        return;
      }
      finished := true;
      shots := shots + [Shot(tick, tiles, pendingTileChanges, scene.players, scene.storm, true, scene.size)];
      pendingTileChanges := [];
      base := tiles;
      over := true;
    }

    method Stop()
      modifies this
      ensures Model() == old(Model()).(finished := true, over := over)
    {
      if finished {
        return;
      }
      finished := true;
      over := true;
    }
  }

  // ---------------------------------------------------------------------------------------------
  // Serving viewers

  /** Serving touches nothing but the flags and what was sent. */
  lemma {:induction false} ServedKeeps(s: Session, targets: seq<Target>)
    ensures
      var x := ServedAll(s, targets);
      x == s.(needsFull := x.needsFull, sent := x.sent)
    decreases |targets|
  {
    if targets != [] {
      ServedKeeps(s, targets[..|targets| - 1]);
    }
  }

  /** What a publish does after its loop touches no flag and nothing sent. */
  lemma PublishedIsServed(s: Session, targets: seq<Target>, scene: Scene, p: nat)
    ensures
      var x, y := Published(s, targets, scene), ServedAll(s, targets);
      (p in x.needsFull <==> p in y.needsFull) && SentTo(x, p) == SentTo(y, p) && x.tick == s.tick
  {
    ServedKeeps(s, targets);
  }

  /** A player is touched by its own turn only. */
  lemma {:induction false} ServedOthers(s: Session, targets: seq<Target>, p: nat)
    requires p !in Ids(targets)
    ensures
      var x := ServedAll(s, targets);
      (p in x.needsFull <==> p in s.needsFull) && SentTo(x, p) == SentTo(s, p)
    decreases |targets|
  {
    if targets != [] {
      var n := |targets| - 1;
      assert targets[n].playerId in Ids(targets);
      assert forall i :: 0 <= i < n ==> targets[..n][i].playerId in Ids(targets);
      ServedOthers(s, targets[..n], p);
    }
  }

  predicate OncePerViewer(targets: seq<Target>) {
    forall i, j :: 0 <= i < j < |targets| ==> targets[i].playerId != targets[j].playerId
  }

  /** A turn depends on nothing another player's turn changes. */
  lemma SameTurn(s: Session, x: Session, t: Target)
    requires x == s.(needsFull := x.needsFull, sent := x.sent)
    requires (t.playerId in x.needsFull <==> t.playerId in s.needsFull)
        && SentTo(x, t.playerId) == SentTo(s, t.playerId)
    ensures t.playerId in Served(x, t).needsFull <==> t.playerId in Served(s, t).needsFull
    ensures SentTo(Served(x, t), t.playerId) == SentTo(Served(s, t), t.playerId)
  {
    assert Frame(x, t) == Frame(s, t);
  }

  lemma OthersTurn(s: Session, t: Target, p: nat)
    requires p != t.playerId
    ensures p in Served(s, t).needsFull <==> p in s.needsFull
    ensures SentTo(Served(s, t), p) == SentTo(s, p)
  {
  }

  /** Each target is served from the state the publish started with. */
  lemma {:induction false} ServedEach(s: Session, targets: seq<Target>, i: nat)
    requires OncePerViewer(targets) && i < |targets|
    ensures
      var x := ServedAll(s, targets);
      var p := targets[i].playerId;
      && (p in x.needsFull <==> p in Served(s, targets[i]).needsFull)
      && SentTo(x, p) == SentTo(Served(s, targets[i]), p)
    decreases |targets|
  {
    var n := |targets| - 1;
    var front := targets[..n];
    var before := ServedAll(s, front);
    if i < n {
      ServedEach(s, front, i);
      OthersTurn(before, targets[n], targets[i].playerId);
    } else {
      ServedKeeps(s, front);
      ServedOthers(s, front, targets[i].playerId);
      SameTurn(s, before, targets[i]);
    }
  }

  function Screen(s: Session, p: nat): Option<Grid> {
    ShowAll(BLANK, SentTo(s, p)).tiles
  }

  /** The viewer's grid with the pending changes applied is the world's. */
  ghost predicate InSync(s: Session, p: nat) {
    Screen(s, p).Some? && ApplyAll(Screen(s, p).value, s.pending) == s.tiles
  }

  /** A frame that is sent brings an in-sync or flagged viewer exactly to the world. */
  lemma ServedCatchesUp(s: Session, t: Target)
    requires !Skips(s, t) && (Frame(s, t).full || InSync(s, t.playerId))
    ensures Screen(Served(s, t), t.playerId) == Some(s.tiles)
  {
    var client := ShowAll(BLANK, SentTo(s, t.playerId));
    ShowSnoc(BLANK, SentTo(s, t.playerId), Frame(s, t));
    var viewer := Viewer(if t.access == Unfiltered then None else Some(t.playerId), t.access, Frame(s, t).full, t.self);
    FrameBringsTiles(client, viewer, s.tick, s.tiles, s.pending, t.content);
  }

  /**
   After a publish a served viewer's screen is the world's grid; a target that got nothing was due a delta,
   had too much buffered, and is flagged for a full frame.
   */
  lemma PublishDelivers(s: Session, targets: seq<Target>, scene: Scene, i: nat)
    requires OncePerViewer(targets) && i < |targets|
    requires targets[i].playerId in s.needsFull || InSync(s, targets[i].playerId)
    ensures
      var x := Published(s, targets, scene);
      var p := targets[i].playerId;
      if targets[i].behind && p !in s.needsFull && s.tick > 1
      then p in x.needsFull && SentTo(x, p) == SentTo(s, p)
      else p !in x.needsFull && SentTo(x, p) == SentTo(s, p) + [Frame(s, targets[i])] && Screen(x, p) == Some(s.tiles)
  {
    ServedEach(s, targets, i);
    ServedKeeps(s, targets);
    if !Skips(s, targets[i]) {
      ServedCatchesUp(s, targets[i]);
    }
  }

  /**
   A delta sent to a viewer in any state reaches the world exactly when the viewer was wrong nowhere but where
   the delta has a change: nothing else repairs a stale cell.
   */
  lemma DeltaReachesExactly(s: Session, t: Target)
    requires !Frame(s, t).full && !Skips(s, t) && Screen(s, t.playerId).Some?
    requires ApplyAll(s.base, s.pending) == s.tiles && SameShape(Screen(s, t.playerId).value, s.tiles)
    ensures Screen(Served(s, t), t.playerId) == Some(s.tiles)
      <==> forall x, y :: InGrid(s.tiles, x, y) && Screen(s, t.playerId).value[y][x] != s.tiles[y][x]
                          ==> Touches(s.pending, x, y)
  {
    var screen := Screen(s, t.playerId).value;
    ResultAgrees(s.base, s.pending);
    CatchesUp(screen, s.pending, s.tiles);
    var client := ShowAll(BLANK, SentTo(s, t.playerId));
    ShowSnoc(BLANK, SentTo(s, t.playerId), Frame(s, t));
    FrameBringsTiles(client, Viewer(if t.access == Unfiltered then None else Some(t.playerId), t.access, false, t.self),
                     s.tick, s.tiles, s.pending, t.content);
  }

  // ---------------------------------------------------------------------------------------------
  // Runs

  datatype Event =
    | Tick(changes: seq<Change>, ended: bool, scene: Scene)
    | Publish(targets: seq<Target>, scene: Scene)
    | Request(playerId: nat)
    | Connect(playerId: nat)
    | Depart(scene: Scene)
    | Abandon

  /** The room names each participant at most once, and nobody publishes after the match ended outside a tick. */
  predicate Allowed(s: Session, e: Event) {
    match e
    case Publish(targets, _) =>
      !s.over && Ids(targets) <= s.participants && OncePerViewer(targets)
    case Connect(p) => p in s.participants
    case _ => true
  }

  function Next(s: Session, e: Event): Session {
    match e
    case Tick(changes, ended, scene) => Stepped(s, changes, ended, scene)
    case Publish(targets, scene) => Published(s, targets, scene)
    case Request(p) => Requested(s, p)
    // a new connection starts blank, and the lifecycle asks for a full frame
    case Connect(p) => Requested(s.(sent := s.sent[p := []]), p)
    case Depart(scene) => EndedByDeparture(s, scene)
    case Abandon => if s.finished then s else s.(finished := true, over := true)
  }

  /** A viewer that missed a publish is served again only after a full frame was requested for it. */
  ghost predicate Careful(s: Session, e: Event) {
    e.Publish? ==> forall p :: p in Ids(e.targets) * s.away ==> p in s.needsFull
  }

  ghost predicate Run(s: Session, events: seq<Event>, end: Session)
    decreases |events|
  {
    if events == [] then end == s
    else Allowed(s, events[0]) && Run(Next(s, events[0]), events[1..], end)
  }

  ghost predicate CarefulRun(s: Session, events: seq<Event>)
    decreases |events|
  {
    events != [] ==> Careful(s, events[0]) && CarefulRun(Next(s, events[0]), events[1..])
  }

  ghost predicate Followed(s: Session, p: nat) {
    p in s.needsFull || p in s.away || InSync(s, p)
  }

  /** What a viewer was sent on one connection is one timeline ending no later than now. */
  ghost predicate SentInOrder(s: Session, p: nat) {
    var frames := SentTo(s, p);
    Timeline(frames) && (frames != [] ==> frames[|frames| - 1].tick <= s.tick)
  }

  ghost predicate Replicating(s: Session) {
    && ApplyAll(s.base, s.pending) == s.tiles
    && (forall p :: p in s.participants ==> SentInOrder(s, p))
    && (!s.over ==> forall p :: p in s.participants ==> Followed(s, p))
  }

  lemma StartReplicates(participants: set<nat>, tiles: Grid)
    ensures Replicating(Started(participants, tiles))
  {
  }

  /** More pending changes leave a viewer as far behind as the world got ahead. */
  lemma TickFollows(s: Session, changes: seq<Change>, ended: bool, scene: Scene)
    requires Replicating(s)
    ensures Replicating(Stepped(s, changes, ended, scene))
  {
    if !s.finished {
      var x := Stepped(s, changes, ended, scene);
      ApplyAppend(s.base, s.pending, changes);
      forall p | p in s.participants ensures SentInOrder(x, p) && (!s.over ==> Followed(x, p)) {
        assert SentInOrder(s, p) && (!s.over ==> Followed(s, p));
        if InSync(s, p) {
          ApplyAppend(Screen(s, p).value, s.pending, changes);
        }
      }
    }
  }

  lemma FrameInOrder(s: Session, t: Target)
    requires SentInOrder(s, t.playerId)
    ensures SentInOrder(Served(s, t), t.playerId)
  {
  }

  lemma PublishFollows(s: Session, targets: seq<Target>, scene: Scene, p: nat)
    requires Allowed(s, Publish(targets, scene)) && Careful(s, Publish(targets, scene))
    requires p in s.participants && Followed(s, p)
    ensures Followed(Published(s, targets, scene), p)
  {
    ServedKeeps(s, targets);
    if p in Ids(targets) {
      var i :| 0 <= i < |targets| && targets[i].playerId == p;
      PublishDelivers(s, targets, scene, i);
    }
  }

  lemma PublishInOrder(s: Session, targets: seq<Target>, scene: Scene, p: nat)
    requires Allowed(s, Publish(targets, scene)) && SentInOrder(s, p)
    ensures SentInOrder(Published(s, targets, scene), p)
  {
    PublishedIsServed(s, targets, scene, p);
    if p in Ids(targets) {
      var i :| 0 <= i < |targets| && targets[i].playerId == p;
      ServedEach(s, targets, i);
      FrameInOrder(s, targets[i]);
      SameFrames(Served(s, targets[i]), Published(s, targets, scene), p);
    } else {
      ServedOthers(s, targets, p);
      SameFrames(s, Published(s, targets, scene), p);
    }
  }

  lemma SameFrames(s: Session, x: Session, p: nat)
    requires SentInOrder(s, p) && SentTo(x, p) == SentTo(s, p) && x.tick == s.tick
    ensures SentInOrder(x, p)
  {
  }

  lemma PublishReplicates(s: Session, targets: seq<Target>, scene: Scene)
    requires Replicating(s) && Allowed(s, Publish(targets, scene)) && Careful(s, Publish(targets, scene))
    ensures Replicating(Published(s, targets, scene))
  {
    ServedKeeps(s, targets);
    var x := Published(s, targets, scene);
    forall p | p in s.participants ensures SentInOrder(x, p) && Followed(x, p) {
      PublishInOrder(s, targets, scene, p);
      PublishFollows(s, targets, scene, p);
    }
  }

  /** A viewer whose frames and world stay, and whose flag does not fall, is followed as before. */
  lemma StillFollowed(s: Session, x: Session, p: nat)
    requires SentInOrder(s, p) && SentTo(x, p) == SentTo(s, p) && x.tick == s.tick
    ensures SentInOrder(x, p)
    ensures Followed(s, p) && s.needsFull <= x.needsFull && x.(needsFull := s.needsFull, sent := s.sent) == s
        ==> Followed(x, p)
  {
  }

  lemma RequestReplicates(s: Session, p: nat)
    requires Replicating(s)
    ensures Replicating(Requested(s, p))
  {
    forall q | q in s.participants
      ensures SentInOrder(Requested(s, p), q) && (!s.over ==> Followed(Requested(s, p), q))
    {
      StillFollowed(s, Requested(s, p), q);
    }
  }

  lemma ConnectReplicates(s: Session, p: nat)
    requires Replicating(s) && p in s.participants
    ensures Replicating(Next(s, Connect(p)))
  {
    var x := Next(s, Connect(p));
    forall q | q in s.participants ensures SentInOrder(x, q) && (!s.over ==> Followed(x, q)) {
      if q != p {
        StillFollowed(s, x, q);
      }
    }
  }

  lemma EndReplicates(s: Session, e: Event)
    requires Replicating(s) && (e.Depart? || e.Abandon?)
    ensures Replicating(Next(s, e))
  {
    var x := Next(s, e);
    if !s.finished {
      forall q | q in s.participants ensures SentInOrder(x, q) {
        StillFollowed(s, x, q);
      }
    }
  }

  lemma NextReplicates(s: Session, e: Event)
    requires Replicating(s) && Allowed(s, e) && Careful(s, e)
    ensures Replicating(Next(s, e))
  {
    match e {
      case Tick(changes, ended, scene) => TickFollows(s, changes, ended, scene);
      case Publish(targets, scene) => PublishReplicates(s, targets, scene);
      case Request(p) => RequestReplicates(s, p);
      case Connect(p) => ConnectReplicates(s, p);
      case _ => EndReplicates(s, e);
    }
  }

  /**
   Viewer replication over every run of steps, publishes, skips, requests and reconnections: until the match
   ends outside a tick, every participant is flagged, is not being served, or is behind by exactly the pending
   changes.
   */
  lemma {:induction false} ViewersFollow(s: Session, events: seq<Event>, end: Session)
    requires Replicating(s) && Run(s, events, end) && CarefulRun(s, events)
    ensures Replicating(end)
    decreases |events|
  {
    if events != [] {
      NextReplicates(s, events[0]);
      ViewersFollow(Next(s, events[0]), events[1..], end);
    }
  }

  /** Frames that show a map on a blank client show it on every client, coalesced or not. */
  lemma CoalescedShows(frames: seq<Snapshot>, renderer: Client, tiles: Grid)
    requires Timeline(frames) && ShowAll(BLANK, frames).tiles == Some(tiles)
    ensures frames != [] && Show(renderer, Coalesced(frames)).tiles == Some(tiles)
  {
    if !HasMap(frames) {
      DeltasShown(BLANK, frames);
    }
    TilesSurvive(frames, renderer);
    MapShown(BLANK, frames);
  }

  /** A viewer whose frames went through the buffer instead ends with the world's map too, once it is served. */
  lemma BufferedViewerSeesWorld(s: Session, targets: seq<Target>, scene: Scene, i: nat, renderer: Client)
    requires Replicating(s) && Allowed(s, Publish(targets, scene)) && Careful(s, Publish(targets, scene))
        && i < |targets|
    requires SentTo(Published(s, targets, scene), targets[i].playerId) != SentTo(s, targets[i].playerId)
    ensures
      var frames := SentTo(Published(s, targets, scene), targets[i].playerId);
      frames != [] && Show(renderer, Coalesced(frames)).tiles == Some(s.tiles)
  {
    var p := targets[i].playerId;
    assert p in Ids(targets);
    assert Followed(s, p) && SentInOrder(s, p);
    PublishDelivers(s, targets, scene, i);
    PublishInOrder(s, targets, scene, p);
    CoalescedShows(SentTo(Published(s, targets, scene), p), renderer, s.tiles);
  }

  // ---------------------------------------------------------------------------------------------
  // The recording of the same run

  function LastTiles(start: Grid, shots: seq<Shot>): Grid {
    if shots == [] then start else shots[|shots| - 1].tiles
  }

  ghost predicate Filming(start: Grid, s: Session) {
    && Film(start, s.shots)
    && ApplyAll(s.base, s.pending) == s.tiles
    && (!s.finished ==> LastTiles(start, s.shots) == s.base)
    && (s.shots != [] ==> s.shots[|s.shots| - 1].tick <= s.tick)
  }

  lemma FilmSnoc(start: Grid, shots: seq<Shot>, shot: Shot)
    requires Film(start, shots) && shot.tiles == ApplyAll(LastTiles(start, shots), shot.changes)
    requires shots != [] ==> shots[|shots| - 1].tick <= shot.tick
    ensures Film(start, shots + [shot])
  {
    assert (shots + [shot])[..|shots|] == shots;
  }

  /** Recording the pending changes keeps the film going. */
  lemma ShotFilms(start: Grid, s: Session, scene: Scene, final: bool)
    requires Filming(start, s) && !s.finished
    ensures Film(start, s.shots + [ShotOf(s, scene, final)])
  {
    FilmSnoc(start, s.shots, ShotOf(s, scene, final));
  }

  lemma TickFilms(start: Grid, s: Session, changes: seq<Change>, ended: bool, scene: Scene)
    requires Filming(start, s)
    ensures Filming(start, Stepped(s, changes, ended, scene))
  {
    ApplyAppend(s.base, s.pending, changes);
    if !s.finished {
      ShotFilms(start, Stepped(s, changes, false, scene), scene, true);
    }
  }

  lemma PublishFilms(start: Grid, s: Session, targets: seq<Target>, scene: Scene)
    requires Filming(start, s)
    ensures Filming(start, Published(s, targets, scene))
  {
    ServedKeeps(s, targets);
    var x := Published(s, targets, scene);
    assert x.shots == if s.finished then s.shots else s.shots + [ShotOf(s, scene, false)];
    assert x.tick == s.tick && x.finished == s.finished && x.pending == [] && x.base == x.tiles == s.tiles;
    if !s.finished {
      ShotFilms(start, s, scene, false);
    }
  }

  lemma DepartFilms(start: Grid, s: Session, scene: Scene)
    requires Filming(start, s)
    ensures Filming(start, EndedByDeparture(s, scene))
  {
    if !s.finished {
      ShotFilms(start, s, scene, true);
    }
  }

  lemma NextFilms(start: Grid, s: Session, e: Event)
    requires Filming(start, s)
    ensures Filming(start, Next(s, e))
  {
    match e {
      case Tick(changes, ended, scene) => TickFilms(start, s, changes, ended, scene);
      case Publish(targets, scene) => PublishFilms(start, s, targets, scene);
      case Depart(scene) => DepartFilms(start, s, scene);
      case _ =>
    }
  }

  /**
   Every run, careful or not, leaves a recording whose consecutive shots differ exactly by the changes the later
   one carries, so that reading it back gives the world of every recorded tick (`Replay.RoundTrip`).
   */
  lemma {:induction false} RunFilms(start: Grid, s: Session, events: seq<Event>, end: Session)
    requires Filming(start, s) && Run(s, events, end)
    ensures Filming(start, end)
    decreases |events|
  {
    if events != [] {
      NextFilms(start, s, events[0]);
      RunFilms(start, Next(s, events[0]), events[1..], end);
    }
  }

  /** From the first tick to the stored file: what was recorded is what is read back, at every tick. */
  lemma MatchReadsBack(participants: set<nat>, tiles: Grid, events: seq<Event>, end: Session,
                       interludes: seq<Interlude>, after: Interlude, matchStart: nat, tick: nat)
    requires Run(Started(participants, tiles), events, end)
    requires |interludes| == |end.shots| && FindsRoom(end.shots, interludes)
    ensures ReconstructedAt(Stored(NotedIn(Recorder(end.shots, interludes), after)), matchStart, tick)
         == ExpectedAt(end.shots, tick)
  {
    RunFilms(tiles, Started(participants, tiles), events, end);
    KeptExactly(end.shots, interludes);
    RoundTrip(tiles, end.shots, interludes, after, matchStart, tick);
  }

  // ---------------------------------------------------------------------------------------------
  // Turning spectating off and on again

  /** The viewer is off while `missed` happens and one publish goes to nobody; then it is on again and served. */
  function OffAndOn(s: Session, missed: seq<Change>, asks: bool, t: Target, scene: Scene): Session {
    var off := Published(Stepped(s, missed, false, scene), [], scene);
    var on := if asks then Requested(off, t.playerId) else off;
    Published(Stepped(on, [], false, scene), [t], scene)
  }

  /**
   Switching spectating off and on asks for nothing, so the changes in between are lost: from any running match
   in which a served viewer misses changes that altered the map, it ends with the old map and without a flag.
   Had the switch asked for a full frame, the viewer would have the world's map.
   */
  lemma MissedWhileOff(s: Session, missed: seq<Change>, asks: bool, t: Target, scene: Scene)
    requires !s.finished && s.pending == [] && t.playerId !in s.needsFull && Screen(s, t.playerId) == Some(s.tiles)
    requires ApplyAll(s.tiles, missed) != s.tiles && !t.behind && s.tick > 0
    ensures
      var end := OffAndOn(s, missed, asks, t, scene);
      && t.playerId !in end.needsFull
      && end.tiles == ApplyAll(s.tiles, missed)
      && Screen(end, t.playerId) == Some(if asks then end.tiles else s.tiles)
  {
    var off := Published(Stepped(s, missed, false, scene), [], scene);
    var on := if asks then Requested(off, t.playerId) else off;
    var ready := Stepped(on, [], false, scene);
    assert ready.pending == [] && ready.tiles == ApplyAll(s.tiles, missed);
    ServedKeeps(ready, [t]);
    assert [t][..0] == [];
    assert ServedAll(ready, [t]) == Served(ready, t);
    if asks {
      ServedCatchesUp(ready, t);
    } else {
      ShowSnoc(BLANK, SentTo(ready, t.playerId), Frame(ready, t));
    }
  }
}
