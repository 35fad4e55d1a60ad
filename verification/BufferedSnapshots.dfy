/**
 The frame buffer of client/src/game/BufferedSnapshots.ts: many frames are folded into one while the
 renderer is not ready, and the one is shown in their place.
 */
module BufferedSnapshots {
  import opened Wrappers
  import opened Tiles
  import opened Snapshots

  // ---------------------------------------------------------------------------------------------
  // The tile map keyed by position

  /** Setting a key of an insertion-ordered map: in place when it is present, at the end otherwise. */
  function Put(tiles: seq<Change>, c: Change): seq<Change>
    decreases |tiles|
  {
    if tiles == [] then [c]
    else if tiles[0].x == c.x && tiles[0].y == c.y then [c] + tiles[1..]
    else [tiles[0]] + Put(tiles[1..], c)
  }

  function PutAll(tiles: seq<Change>, changes: seq<Change>): seq<Change>
    decreases |changes|
  {
    if changes == [] then tiles else Put(PutAll(tiles, changes[..|changes| - 1]), changes[|changes| - 1])
  }

  ghost predicate OnePerCell(tiles: seq<Change>) {
    forall i, j :: 0 <= i < j < |tiles| ==> tiles[i].x != tiles[j].x || tiles[i].y != tiles[j].y
  }

  lemma {:induction false} PutLatest(tiles: seq<Change>, c: Change)
    requires OnePerCell(tiles)
    ensures OnePerCell(Put(tiles, c))
    ensures forall x, y ::
      Latest(Put(tiles, c), x, y) == if c.x == x && c.y == y then Some(c.physics) else Latest(tiles, x, y)
    decreases |tiles|
  {
    if tiles != [] {
      var rest := tiles[1..];
      var t := tiles[0];
      assert tiles == [t] + rest;
      if t.x == c.x && t.y == c.y {
        forall x, y
          ensures Latest([c] + rest, x, y) == if c.x == x && c.y == y then Some(c.physics) else Latest(tiles, x, y)
        {
          LatestAppend([c], rest, x, y);
          LatestAppend([t], rest, x, y);
          if Touches(rest, x, y) {
            var i :| 0 <= i < |rest| && rest[i].x == x && rest[i].y == y;
            assert tiles[i + 1] == rest[i];
          }
        }
      } else {
        PutLatest(rest, c);
        forall x, y
          ensures Latest(Put(tiles, c), x, y) == if c.x == x && c.y == y then Some(c.physics) else Latest(tiles, x, y)
        {
          LatestAppend([t], Put(rest, c), x, y);
          LatestAppend([t], rest, x, y);
        }
        HeadStaysAlone(t, rest, c);
      }
    }
  }

  lemma HeadStaysAlone(t: Change, rest: seq<Change>, c: Change)
    requires OnePerCell([t] + rest) && OnePerCell(Put(rest, c)) && (t.x != c.x || t.y != c.y)
    requires Latest(Put(rest, c), t.x, t.y) == Latest(rest, t.x, t.y)
    ensures OnePerCell([t] + Put(rest, c))
  {
    var all := [t] + rest;
    forall i | 0 <= i < |rest| ensures rest[i].x != t.x || rest[i].y != t.y {
      assert all[0] == t && all[i + 1] == rest[i];
    }
    Prepended(t, Put(rest, c));
  }

  lemma Prepended(t: Change, tiles: seq<Change>)
    requires OnePerCell(tiles) && !Touches(tiles, t.x, t.y)
    ensures OnePerCell([t] + tiles)
  {
    var all := [t] + tiles;
    forall i, j | 0 <= i < j < |all| ensures all[i].x != all[j].x || all[i].y != all[j].y {
      assert all[j] == tiles[j - 1];
      if i > 0 {
        assert all[i] == tiles[i - 1];
      }
    }
  }

  /** Folding changes into the map keeps the last one per cell and nothing else. */
  lemma {:induction false} PutAllLatest(tiles: seq<Change>, changes: seq<Change>)
    requires OnePerCell(tiles)
    ensures OnePerCell(PutAll(tiles, changes))
    ensures forall x, y :: Latest(PutAll(tiles, changes), x, y) == Latest(tiles + changes, x, y)
    decreases |changes|
  {
    if changes == [] {
      assert tiles + changes == tiles;
    } else {
      var front := changes[..|changes| - 1];
      PutAllLatest(tiles, front);
      PutLatest(PutAll(tiles, front), changes[|changes| - 1]);
      assert (tiles + changes)[..|tiles + changes| - 1] == tiles + front;
    }
  }

  // ---------------------------------------------------------------------------------------------
  // The buffer

  function Held(s: Snapshot): seq<Change> {
    if s.tileChanges.Some? then s.tileChanges.value else []
  }

  predicate Resets(held: Option<Snapshot>, next: Snapshot) {
    next.full || held.None? || next.tick < held.value.tick
  }

  /** `{ ...previous, ...next }` */
  function Merged(previous: Snapshot, next: Snapshot): Snapshot {
    Snapshot(next.full, next.tick,
             if next.grid.Some? then next.grid else previous.grid,
             if next.tileChanges.Some? then next.tileChanges else previous.tileChanges,
             previous.sections + next.sections)
  }

  function Pushed(held: Option<Snapshot>, next: Snapshot): Snapshot {
    var merged := if Resets(held, next) then next else Merged(held.value, next);
    if next.tileChanges.None? then merged
    else if merged.grid.Some? then
      merged.(grid := Some(ApplyAll(merged.grid.value, next.tileChanges.value)), tileChanges := None)
    else if Resets(held, next) then merged
    else merged.(tileChanges := Some(PutAll([], Held(held.value) + next.tileChanges.value)))
  }

  class BufferedSnapshots {
    var snapshot: Option<Snapshot>

    constructor ()
      ensures snapshot == None
    {
      snapshot := None;
    }

    method Push(next: Snapshot)
      modifies this
      ensures snapshot == Some(Pushed(old(snapshot), next))
    {
      var previous := snapshot;
      var resets := next.full || previous.None? || next.tick < previous.value.tick;
      var merged := if resets then next else Merged(previous.value, next);
      if next.tileChanges.Some? {
        var changes := next.tileChanges.value;
        if merged.grid.Some? {
          var tiles := merged.grid.value;
          var i := 0;
          while i < |changes|
            invariant i <= |changes|
            invariant tiles == ApplyAll(merged.grid.value, changes[..i])
          {
            var tile := changes[i];
            assert changes[..i + 1][..i] == changes[..i];
            if 0 <= tile.y < |tiles| && tile.x >= 0 && tile.x < |tiles[tile.y]| {
              tiles := tiles[tile.y := tiles[tile.y][tile.x := tile.physics]];
            }
            i := i + 1;
          }
          assert changes[..i] == changes;
          merged := merged.(grid := Some(tiles), tileChanges := None);
        } else if !resets {
          var tiles := MergeTiles(Held(previous.value), changes);
          merged := merged.(tileChanges := Some(tiles));
        }
      }
      snapshot := Some(merged);
    }

    method MergeTiles(previous: seq<Change>, changes: seq<Change>) returns (tiles: seq<Change>)
      ensures tiles == PutAll([], previous + changes)
    {
      var all := previous + changes;
      tiles := [];
      var i := 0;
      while i < |all|
        invariant i <= |all|
        invariant tiles == PutAll([], all[..i])
      {
        assert all[..i + 1][..i] == all[..i];
        tiles := Put(tiles, all[i]);
        i := i + 1;
      }
      assert all[..i] == all;
    }

    method Take() returns (s: Option<Snapshot>)
      modifies this
      ensures s == old(snapshot) && snapshot == None
    {
      s := snapshot;
      snapshot := None;
    }
  }

  // ---------------------------------------------------------------------------------------------
  // What one frame in place of many means

  /** What `take` returns after pushing `frames` into an empty buffer. */
  function Coalesced(frames: seq<Snapshot>): Snapshot
    requires frames != []
    decreases |frames|
  {
    var n := |frames| - 1;
    Pushed(if n == 0 then None else Some(Coalesced(frames[..n])), frames[n])
  }

  /** The frame at which the buffer last started over. */
  function LastReset(frames: seq<Snapshot>): (k: nat)
    requires frames != []
    ensures k < |frames|
    decreases |frames|
  {
    var n := |frames| - 1;
    if n == 0 || frames[n].full || frames[n].tick < frames[n - 1].tick then n else LastReset(frames[..n])
  }

  ghost predicate MapsAreFull(frames: seq<Snapshot>) {
    forall f :: f in frames && f.grid.Some? ==> f.full
  }

  ghost predicate HasMap(frames: seq<Snapshot>) {
    exists f :: f in frames && f.grid.Some?
  }

  function ChangesOf(frames: seq<Snapshot>): seq<Change>
    decreases |frames|
  {
    if frames == [] then [] else ChangesOf(frames[..|frames| - 1]) + Held(frames[|frames| - 1])
  }

  function SectionsOf(frames: seq<Snapshot>): map<Section, Value>
    decreases |frames|
  {
    if frames == [] then map[] else SectionsOf(frames[..|frames| - 1]) + frames[|frames| - 1].sections
  }

  /** Merging two deltas is showing one after the other. */
  lemma MergeMeans(client: Client, held: Snapshot, next: Snapshot)
    requires !Resets(Some(held), next) && next.grid.None?
    requires held.grid.Some? ==> held.tileChanges.None?
    ensures Show(client, Pushed(Some(held), next)) == Show(Show(client, held), next)
  {
    var one := Show(client, Pushed(Some(held), next));
    var two := Show(Show(client, held), next);
    assert one.shown == two.shown;
    assert one.tiles == two.tiles by {
      if held.grid.None? && next.tileChanges.Some? && client.tiles.Some? {
        DeltasMerge(client.tiles.value, Held(held), next.tileChanges.value);
      }
    }
  }

  /** Changes kept by position do to every grid what the two lists do one after the other. */
  lemma DeltasMerge(g: Grid, p: seq<Change>, q: seq<Change>)
    ensures ApplyAll(g, PutAll([], p + q)) == ApplyAll(ApplyAll(g, p), q)
  {
    PutAllLatest([], p + q);
    assert [] + (p + q) == p + q;
    SameChanges(g, PutAll([], p + q), p + q);
    ApplyAppend(g, p, q);
  }

  /** A frame that resets the buffer stands for itself. */
  lemma ResetMeans(client: Client, held: Option<Snapshot>, next: Snapshot)
    requires Resets(held, next)
    ensures Show(client, Pushed(held, next)) == Show(client, next)
    ensures Pushed(held, next).grid.Some? ==> Pushed(held, next).tileChanges.None?
  {
  }

  /** For a client, the held frame does what the shown ones do, and it never has both a map and tile changes. */
  ghost predicate StandsFor(client: Client, held: Snapshot, shown: seq<Snapshot>) {
    Show(client, held) == ShowAll(client, shown) && !(held.grid.Some? && held.tileChanges.Some?)
  }

  /** The held frame stands for every frame since the last reset. */
  lemma {:induction false} HeldMeans(client: Client, frames: seq<Snapshot>)
    requires frames != [] && MapsAreFull(frames)
    ensures StandsFor(client, Coalesced(frames), frames[LastReset(frames)..])
    ensures Coalesced(frames).tick == frames[|frames| - 1].tick
    decreases |frames|
  {
    CoalescedTick(frames);
    var n := |frames| - 1;
    if LastReset(frames) == n {
      ResetStands(client, if n == 0 then None else Some(Coalesced(frames[..n])), frames[n]);
      assert frames[n..] == [frames[n]];
    } else {
      HeldMeans(client, frames[..n]);
      var held, next := MergeStep(frames);
      MergeStands(client, held, next, frames[..n][LastReset(frames)..]);
      SliceSnoc(frames, LastReset(frames));
    }
  }

  lemma SliceSnoc(frames: seq<Snapshot>, k: nat)
    requires k < |frames|
    ensures frames[k..] == frames[..|frames| - 1][k..] + [frames[|frames| - 1]]
  {
  }

  lemma CoalescedTick(frames: seq<Snapshot>)
    requires frames != []
    ensures Coalesced(frames).tick == frames[|frames| - 1].tick
  {
  }

  lemma ResetStands(client: Client, held: Option<Snapshot>, next: Snapshot)
    requires Resets(held, next)
    ensures StandsFor(client, Pushed(held, next), [next])
  {
    ResetMeans(client, held, next);
    ShowSnoc(client, [], next);
    assert [] + [next] == [next];
  }

  lemma MergeStands(client: Client, held: Snapshot, next: Snapshot, shown: seq<Snapshot>)
    requires !Resets(Some(held), next) && next.grid.None? && StandsFor(client, held, shown)
    ensures StandsFor(client, Pushed(Some(held), next), shown + [next])
  {
    MergeMeans(client, held, next);
    ShowSnoc(client, shown, next);
  }

  /** The last push when it merges. */
  lemma MergeStep(frames: seq<Snapshot>) returns (held: Snapshot, next: Snapshot)
    requires |frames| > 1 && MapsAreFull(frames) && LastReset(frames) < |frames| - 1
    ensures
      var n := |frames| - 1;
      && held == Coalesced(frames[..n]) && next == frames[n] && LastReset(frames) == LastReset(frames[..n])
      && Coalesced(frames) == Pushed(Some(held), next) && !Resets(Some(held), next) && next.grid.None?
  {
    var n := |frames| - 1;
    held, next := Coalesced(frames[..n]), frames[n];
    CoalescedTick(frames[..n]);
    assert next in frames;
  }

  /** After the last reset no later frame brings a map. */
  lemma {:induction false} NoMapAfterReset(frames: seq<Snapshot>)
    requires frames != [] && MapsAreFull(frames)
    ensures !HasMap(frames[LastReset(frames) + 1..])
    decreases |frames|
  {
    var n := |frames| - 1;
    if LastReset(frames) < n {
      NoMapAfterReset(frames[..n]);
      var k := LastReset(frames);
      assert frames[k + 1..] == frames[..n][k + 1..] + [frames[n]];
    }
  }

  lemma {:induction false} SectionsShown(client: Client, frames: seq<Snapshot>)
    ensures ShowAll(client, frames).shown == client.shown + SectionsOf(frames)
    decreases |frames|
  {
    if frames != [] {
      SectionsShown(client, frames[..|frames| - 1]);
    }
  }

  lemma {:induction false} DeltasShown(client: Client, frames: seq<Snapshot>)
    requires !HasMap(frames)
    ensures ShowAll(client, frames).tiles == Repaint(client.tiles, Some(ChangesOf(frames)))
    decreases |frames|
  {
    if frames == [] {
    } else {
      var n := |frames| - 1;
      assert frames[n] in frames && !HasMap(frames[..n]);
      DeltasShown(client, frames[..n]);
      if client.tiles.Some? {
        ApplyAppend(client.tiles.value, ChangesOf(frames[..n]), Held(frames[n]));
      }
    }
  }

  /** A sequence in which a map appears shows some map, whatever was there before. */
  lemma {:induction false} MapShown(client: Client, frames: seq<Snapshot>)
    requires HasMap(frames)
    ensures ShowAll(client, frames).tiles.Some?
    ensures forall other: Client :: ShowAll(other, frames).tiles == ShowAll(client, frames).tiles
    decreases |frames|
  {
    var n := |frames| - 1;
    if frames[n].grid.None? {
      assert HasMap(frames[..n]);
      MapShown(client, frames[..n]);
    }
  }

  /** The dropped frames leave no trace once the kept ones are shown. */
  ghost predicate Superseded(dropped: seq<Snapshot>, kept: seq<Snapshot>) {
    && SectionsOf(dropped).Keys <= SectionsOf(kept).Keys
    && (HasMap(kept)
        || (!HasMap(dropped)
            && forall x: nat, y: nat :: Touches(ChangesOf(dropped), x, y) ==> Touches(ChangesOf(kept), x, y)))
  }

  lemma SupersededIsEnough(dropped: seq<Snapshot>, kept: seq<Snapshot>, client: Client)
    requires Superseded(dropped, kept)
    ensures ShowAll(ShowAll(client, dropped), kept) == ShowAll(client, kept)
  {
    var between := ShowAll(client, dropped);
    SectionsShown(client, dropped);
    SectionsShown(client, kept);
    SectionsShown(between, kept);
    assert between.shown + SectionsOf(kept) == client.shown + SectionsOf(kept);
    if HasMap(kept) {
      MapShown(client, kept);
    } else {
      DeltasShown(client, dropped);
      DeltasShown(client, kept);
      DeltasShown(between, kept);
      if client.tiles.Some? {
        OverwrittenCells(client.tiles.value, ChangesOf(dropped), ChangesOf(kept));
      }
    }
  }

  lemma OverwrittenCells(g: Grid, p: seq<Change>, q: seq<Change>)
    requires forall x: nat, y: nat :: Touches(p, x, y) ==> Touches(q, x, y)
    ensures ApplyAll(ApplyAll(g, p), q) == ApplyAll(g, q)
  {
    var one, two := ApplyAll(ApplyAll(g, p), q), ApplyAll(g, q);
    forall x, y | InGrid(g, x, y) ensures one[y][x] == two[y][x] {
      CellAfter(g, p, x, y);
      CellAfter(ApplyAll(g, p), q, x, y);
      CellAfter(g, q, x, y);
      assert Touches(p, x, y) ==> Touches(q, x, y);
    }
    SameGrid(one, two);
  }

  lemma SupersededIsNeeded(dropped: seq<Snapshot>, kept: seq<Snapshot>)
    requires forall client: Client :: ShowAll(ShowAll(client, dropped), kept) == ShowAll(client, kept)
    ensures Superseded(dropped, kept)
  {
    var between := ShowAll(BLANK, dropped);
    assert ShowAll(between, kept) == ShowAll(BLANK, kept);
    SectionsShown(BLANK, dropped);
    SectionsShown(BLANK, kept);
    SectionsShown(between, kept);
    assert (BLANK.shown + SectionsOf(dropped) + SectionsOf(kept)).Keys
        == SectionsOf(dropped).Keys + SectionsOf(kept).Keys;
    assert (BLANK.shown + SectionsOf(kept)).Keys == SectionsOf(kept).Keys;
    if !HasMap(kept) {
      DeltasShown(BLANK, kept);
      DeltasShown(between, kept);
      if HasMap(dropped) {
        MapShown(BLANK, dropped);
        assert false;
      }
      forall x: nat, y: nat | Touches(ChangesOf(dropped), x, y) ensures Touches(ChangesOf(kept), x, y) {
        if !Touches(ChangesOf(kept), x, y) {
          CellGivesAway(dropped, kept, x, y);
        }
      }
    }
  }

  /** A dropped change that no kept frame repeats shows on some client. */
  lemma CellGivesAway(dropped: seq<Snapshot>, kept: seq<Snapshot>, x: nat, y: nat)
    requires !HasMap(dropped) && !HasMap(kept)
    requires Touches(ChangesOf(dropped), x, y) && !Touches(ChangesOf(kept), x, y)
    ensures exists client: Client :: ShowAll(ShowAll(client, dropped), kept) != ShowAll(client, kept)
  {
    var p, q := ChangesOf(dropped), ChangesOf(kept);
    LatestAppend(p, q, x, y);
    var g := TellApart(p + q, q, x, y);
    ApplyAppend(g, p, q);
    var client := Client(Some(g), map[]);
    DeltasShown(client, dropped);
    DeltasShown(client, kept);
    DeltasShown(ShowAll(client, dropped), kept);
    assert ShowAll(ShowAll(client, dropped), kept) != ShowAll(client, kept);
  }

  lemma CoalescedKeeps(frames: seq<Snapshot>, client: Client)
    requires frames != [] && MapsAreFull(frames)
    ensures
      var k := LastReset(frames);
      && Show(client, Coalesced(frames)) == ShowAll(client, frames[k..])
      && ShowAll(client, frames) == ShowAll(ShowAll(client, frames[..k]), frames[k..])
  {
    var k := LastReset(frames);
    HeldMeans(client, frames);
    assert frames == frames[..k] + frames[k..];
    ShowAppend(client, frames[..k], frames[k..]);
  }

  /** Showing the one frame is, for every client, showing all of them. */
  ghost predicate Faithful(frames: seq<Snapshot>)
    requires frames != []
  {
    forall client: Client :: Show(client, Coalesced(frames)) == ShowAll(client, frames)
  }

  /**
   Coalescing preserves meaning exactly when the frames before the last reset are superseded by those from it
   on: every client ends with the same map and the same sections if and only if that holds.
   */
  lemma CoalescingExact(frames: seq<Snapshot>)
    requires frames != [] && MapsAreFull(frames)
    ensures Faithful(frames) <==> Superseded(frames[..LastReset(frames)], frames[LastReset(frames)..])
  {
    var k := LastReset(frames);
    if Superseded(frames[..k], frames[k..]) {
      forall client: Client ensures Show(client, Coalesced(frames)) == ShowAll(client, frames) {
        CoalescedKeeps(frames, client);
        SupersededIsEnough(frames[..k], frames[k..], client);
      }
    }
    if Faithful(frames) {
      forall client: Client ensures ShowAll(ShowAll(client, frames[..k]), frames[k..]) == ShowAll(client, frames[k..]) {
        CoalescedKeeps(frames, client);
        assert Show(client, Coalesced(frames)) == ShowAll(client, frames);
      }
      SupersededIsNeeded(frames[..k], frames[k..]);
    }
  }

  /** Frames of one server timeline: ticks do not fall, and a frame is full exactly when it brings the map. */
  ghost predicate Timeline(frames: seq<Snapshot>) {
    && (forall i, j :: 0 <= i < j < |frames| ==> frames[i].tick <= frames[j].tick)
    && (forall f :: f in frames ==> (f.full <==> f.grid.Some?))
  }

  lemma {:induction false} ResetIsFull(frames: seq<Snapshot>)
    requires frames != [] && Timeline(frames)
    ensures LastReset(frames) > 0 ==> frames[LastReset(frames)].full
    decreases |frames|
  {
    if LastReset(frames) < |frames| - 1 {
      ResetIsFull(frames[..|frames| - 1]);
    }
  }

  /** On one timeline the map always survives coalescing, whatever else is lost. */
  lemma TilesSurvive(frames: seq<Snapshot>, client: Client)
    requires frames != [] && Timeline(frames)
    ensures Show(client, Coalesced(frames)).tiles == ShowAll(client, frames).tiles
  {
    var k := LastReset(frames);
    CoalescedKeeps(frames, client);
    if k == 0 {
      assert frames[..0] == [] && frames[0..] == frames;
    } else {
      ResetIsFull(frames);
      ResetBringsMap(frames, k, client, ShowAll(client, frames[..k]));
    }
  }

  lemma ResetBringsMap(frames: seq<Snapshot>, k: nat, client: Client, other: Client)
    requires k < |frames| && frames[k].full && Timeline(frames)
    ensures ShowAll(client, frames[k..]).tiles == ShowAll(other, frames[k..]).tiles
  {
    assert frames[k] in frames && frames[k] in frames[k..];
    MapShown(client, frames[k..]);
  }

  /**
   Sections do not always survive: a viewer that saw a filtered frame and then a full unfiltered one keeps its
   tile shading on screen when frames are shown one by one, and never gets it when they are coalesced.
   */
  lemma ShadingIsLost(tiles: Grid, content: Section -> Value)
    ensures
      var filtered := Built(Viewer(Some(1), Filtered, true, true), 2, tiles, [], content);
      var unfiltered := Built(Viewer(Some(1), Unfiltered, true, true), 4, tiles, [], content);
      var frames := [filtered, unfiltered];
      && Timeline(frames)
      && TileAlphas in ShowAll(BLANK, frames).shown
      && TileAlphas !in Show(BLANK, Coalesced(frames)).shown
  {
    var filtered := Built(Viewer(Some(1), Filtered, true, true), 2, tiles, [], content);
    var unfiltered := Built(Viewer(Some(1), Unfiltered, true, true), 4, tiles, [], content);
    assert [filtered, unfiltered][..1] == [filtered] && [filtered][..0] == [];
    assert TileAlphas in filtered.sections && TileAlphas !in unfiltered.sections;
  }

  // ---------------------------------------------------------------------------------------------
  // When the buffer starts over

  /** A full frame, and one from an earlier tick, replaces what was held; any other one keeps its sections. */
  lemma StartsOverExactly(held: Snapshot, next: Snapshot)
    ensures
      var x := Pushed(Some(held), next);
      if next.full || next.tick < held.tick
      then x.sections == next.sections && forall client: Client :: Show(client, x) == Show(client, next)
      else
        && x.tick == next.tick
        && (forall s :: s in x.sections <==> s in held.sections || s in next.sections)
        && forall s :: s in x.sections ==>
             x.sections[s] == if s in next.sections then next.sections[s] else held.sections[s]
  {
    if next.full || next.tick < held.tick {
      forall client: Client ensures Show(client, Pushed(Some(held), next)) == Show(client, next) {
        ResetMeans(client, Some(held), next);
      }
    }
  }
}
