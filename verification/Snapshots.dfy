/**
 Decoded snapshot frames: what the server puts into one (server-game/src/game/snapshot-view.ts) and what a
 client does with one (client/src/game/internal/WorldScene.ts).
 */
module Snapshots {
  import opened Wrappers
  import opened Tiles

  /** The sections besides the map whose latest value a client shows. */
  datatype Section = TileAlphas | Storm | Players | Regions | SelfId | Cooldowns | Roster

  /** The content of a section; its shape does not matter here. */
  type Value = int

  datatype Snapshot = Snapshot(
    full: bool,
    tick: nat,
    grid: Option<Grid>,
    tileChanges: Option<seq<Change>>,
    sections: map<Section, Value>
  )

  datatype Access = Unfiltered | Filtered

  /** `self` is set when the viewer is still among the world's players. */
  datatype Viewer = Viewer(playerId: Option<nat>, access: Access, full: bool, self: bool)

  predicate Filters(viewer: Viewer) {
    viewer.access == Filtered && viewer.playerId.Some?
  }

  /** Which sections a frame carries: a list may be empty, but a missing section means "unchanged". */
  function Carries(viewer: Viewer): set<Section> {
    {Storm, Players}
    + (if viewer.full then {Roster} else {})
    + (if Filters(viewer) then {TileAlphas, SelfId} else {})
    + (if Filters(viewer) && viewer.self then {Cooldowns} else {})
  }

  function Built(viewer: Viewer, tick: nat, tiles: Grid, changes: seq<Change>, content: Section -> Value): Snapshot {
    Snapshot(viewer.full, tick,
             if viewer.full then Some(tiles) else None,
             if viewer.full || changes == [] then None else Some(changes),
             map s | s in Carries(viewer) :: content(s))
  }

  method BuildSnapshot(viewer: Viewer, tick: nat, tiles: Grid, changes: seq<Change>, content: Section -> Value)
    returns (snapshot: Snapshot)
    ensures snapshot == Built(viewer, tick, tiles, changes, content)
  {
    var grid, tileChanges := None, None;
    var sections := map[Storm := content(Storm)];
    if viewer.full {
      grid := Some(tiles);
      sections := sections[Roster := content(Roster)];
    } else if |changes| > 0 {
      tileChanges := Some(changes);
    }
    sections := sections[Players := content(Players)];
    if viewer.access != Unfiltered && viewer.playerId.Some? {
      sections := sections[TileAlphas := content(TileAlphas)];
      sections := sections[SelfId := content(SelfId)];
      if viewer.self {
        sections := sections[Cooldowns := content(Cooldowns)];
      }
    }
    assert sections.Keys == Carries(viewer);
    return Snapshot(viewer.full, tick, grid, tileChanges, sections);
  }

  // ---------------------------------------------------------------------------------------------
  // The receiving side

  /** What a client has on screen: no map before the first frame that brings one. */
  datatype Client = Client(tiles: Option<Grid>, shown: map<Section, Value>)

  const BLANK := Client(None, map[])

  function Repaint(tiles: Option<Grid>, changes: Option<seq<Change>>): Option<Grid> {
    if tiles.Some? && changes.Some? then Some(ApplyAll(tiles.value, changes.value)) else tiles
  }

  function Show(client: Client, s: Snapshot): Client {
    Client(Repaint(if s.grid.Some? then s.grid else client.tiles, s.tileChanges), client.shown + s.sections)
  }

  function ShowAll(client: Client, frames: seq<Snapshot>): Client
    decreases |frames|
  {
    if frames == [] then client
    else Show(ShowAll(client, frames[..|frames| - 1]), frames[|frames| - 1])
  }

  lemma ShowSnoc(client: Client, frames: seq<Snapshot>, next: Snapshot)
    ensures ShowAll(client, frames + [next]) == Show(ShowAll(client, frames), next)
  {
    assert (frames + [next])[..|frames + [next]| - 1] == frames;
  }

  lemma {:induction false} ShowAppend(client: Client, a: seq<Snapshot>, b: seq<Snapshot>)
    ensures ShowAll(client, a + b) == ShowAll(ShowAll(client, a), b)
    decreases |b|
  {
    if b == [] {
      assert a + b == a;
    } else {
      ShowAppend(client, a, b[..|b| - 1]);
      assert (a + b)[..|a + b| - 1] == a + b[..|b| - 1];
    }
  }

  /** A full frame shows the world whatever was on screen; a delta brings the screen exactly its changes further. */
  lemma FrameBringsTiles(client: Client, viewer: Viewer, tick: nat, tiles: Grid, changes: seq<Change>,
                         content: Section -> Value)
    ensures
      var after := Show(client, Built(viewer, tick, tiles, changes, content));
      && (viewer.full ==> after.tiles == Some(tiles))
      && (!viewer.full ==> after.tiles == Repaint(client.tiles, Some(changes)))
      && (forall s :: s in after.shown <==> s in client.shown || s in Carries(viewer))
      && (forall s :: s in Carries(viewer) ==> after.shown[s] == content(s))
  {
    if !viewer.full && changes == [] && client.tiles.Some? {
      assert ApplyAll(client.tiles.value, changes) == client.tiles.value;
    }
  }
}
