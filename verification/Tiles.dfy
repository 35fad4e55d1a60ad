/**
 The replicated tile map: grids, changes, and what a list of changes means cell by cell.
 */
module Tiles {
  import opened Wrappers

  type Tile = int

  type Grid = seq<seq<Tile>>

  datatype Change = Change(x: int, y: int, physics: Tile)

  predicate InGrid(g: Grid, x: int, y: int) {
    0 <= y < |g| && 0 <= x < |g[y]|
  }

  predicate SameShape(g: Grid, h: Grid) {
    |g| == |h| && forall y :: 0 <= y < |g| ==> |g[y]| == |h[y]|
  }

  /** One change; a change outside the grid does nothing. */
  function Set(g: Grid, c: Change): (r: Grid)
    ensures SameShape(g, r)
    ensures forall x, y :: InGrid(g, x, y) ==> r[y][x] == if c.x == x && c.y == y then c.physics else g[y][x]
  {
    if InGrid(g, c.x, c.y) then g[c.y := g[c.y][c.x := c.physics]] else g
  }

  function ApplyAll(g: Grid, changes: seq<Change>): (r: Grid)
    ensures SameShape(g, r)
    decreases |changes|
  {
    if changes == [] then g
    else Set(ApplyAll(g, changes[..|changes| - 1]), changes[|changes| - 1])
  }

  /** The last change to a position, if there is one. */
  function Latest(changes: seq<Change>, x: int, y: int): (r: Option<Tile>)
    ensures r.Some? <==> exists i :: 0 <= i < |changes| && changes[i].x == x && changes[i].y == y
    decreases |changes|
  {
    if changes == [] then None
    else
      var c := changes[|changes| - 1];
      if c.x == x && c.y == y then Some(c.physics) else Latest(changes[..|changes| - 1], x, y)
  }

  function Or(latest: Option<Tile>, tile: Tile): Tile {
    if latest.Some? then latest.value else tile
  }

  predicate Touches(changes: seq<Change>, x: int, y: int) {
    Latest(changes, x, y).Some?
  }

  lemma SameGrid(g: Grid, h: Grid)
    requires SameShape(g, h)
    requires forall x, y :: InGrid(g, x, y) ==> g[y][x] == h[y][x]
    ensures g == h
  {
    forall y | 0 <= y < |g| ensures g[y] == h[y] {
      assert forall x :: 0 <= x < |g[y]| ==> InGrid(g, x, y);
    }
  }

  /** What a list of changes does to a cell: its last change wins. */
  lemma {:induction false} CellAfter(g: Grid, changes: seq<Change>, x: int, y: int)
    requires InGrid(g, x, y)
    ensures ApplyAll(g, changes)[y][x] == Or(Latest(changes, x, y), g[y][x])
    decreases |changes|
  {
    if changes != [] {
      CellAfter(g, changes[..|changes| - 1], x, y);
    }
  }

  lemma {:induction false} ApplyAppend(g: Grid, a: seq<Change>, b: seq<Change>)
    ensures ApplyAll(g, a + b) == ApplyAll(ApplyAll(g, a), b)
    decreases |b|
  {
    if b == [] {
      assert a + b == a;
    } else {
      ApplyAppend(g, a, b[..|b| - 1]);
      assert (a + b)[..|a + b| - 1] == a + b[..|b| - 1];
    }
  }

  lemma {:induction false} LatestAppend(a: seq<Change>, b: seq<Change>, x: int, y: int)
    ensures Latest(a + b, x, y) == if Touches(b, x, y) then Latest(b, x, y) else Latest(a, x, y)
    decreases |b|
  {
    if b == [] {
      assert a + b == a;
    } else {
      LatestAppend(a, b[..|b| - 1], x, y);
      assert (a + b)[..|a + b| - 1] == a + b[..|b| - 1];
    }
  }

  /** Lists that agree on the last change of every cell are the same transformation of a grid. */
  lemma SameChanges(g: Grid, a: seq<Change>, b: seq<Change>)
    requires forall x, y :: Latest(a, x, y) == Latest(b, x, y)
    ensures ApplyAll(g, a) == ApplyAll(g, b)
  {
    forall x, y | InGrid(g, x, y) ensures ApplyAll(g, a)[y][x] == ApplyAll(g, b)[y][x] {
      CellAfter(g, a, x, y);
      CellAfter(g, b, x, y);
    }
    SameGrid(ApplyAll(g, a), ApplyAll(g, b));
  }

  /** A viewer that applies `changes` reaches `target` exactly when it was wrong only where `changes` says. */
  lemma CatchesUp(screen: Grid, changes: seq<Change>, target: Grid)
    requires SameShape(screen, target)
    requires forall x, y ::
        InGrid(target, x, y) && Touches(changes, x, y) ==> Latest(changes, x, y) == Some(target[y][x])
    ensures ApplyAll(screen, changes) == target
      <==> forall x, y :: InGrid(target, x, y) && screen[y][x] != target[y][x] ==> Touches(changes, x, y)
  {
    var after := ApplyAll(screen, changes);
    forall x, y | InGrid(target, x, y)
      ensures after[y][x] == if Touches(changes, x, y) then target[y][x] else screen[y][x]
    {
      CellAfter(screen, changes, x, y);
    }
    if forall x, y :: InGrid(target, x, y) && screen[y][x] != target[y][x] ==> Touches(changes, x, y) {
      SameGrid(after, target);
    }
  }

  /** What a list of changes leaves behind agrees with the list on every cell it touches. */
  lemma ResultAgrees(g: Grid, changes: seq<Change>)
    ensures
      var r := ApplyAll(g, changes);
      forall x, y :: InGrid(r, x, y) && Touches(changes, x, y) ==> Latest(changes, x, y) == Some(r[y][x])
  {
    forall x, y | InGrid(ApplyAll(g, changes), x, y) && Touches(changes, x, y)
      ensures Latest(changes, x, y) == Some(ApplyAll(g, changes)[y][x])
    {
      CellAfter(g, changes, x, y);
    }
  }

  /** Whether two different lists ever act differently is decided by one cell of one grid. */
  lemma TellApart(a: seq<Change>, b: seq<Change>, x: nat, y: nat) returns (g: Grid)
    requires Latest(a, x, y).Some? && Latest(b, x, y).None?
    ensures ApplyAll(g, a) != ApplyAll(g, b)
  {
    var other := Latest(a, x, y).value + 1;
    g := seq(y + 1, _ => seq(x + 1, _ => other));
    assert InGrid(g, x, y);
    CellAfter(g, a, x, y);
    CellAfter(g, b, x, y);
  }

  /**
   The timeline of one tick: entries outside the grid or without effect are dropped, the rest are applied and
   reported.
   */
  method ApplyTimeline(tiles: Grid, entries: seq<Change>) returns (after: Grid, changes: seq<Change>)
    ensures after == ApplyAll(tiles, changes) == ApplyAll(tiles, entries)
    ensures forall c :: c in changes ==> c in entries && InGrid(tiles, c.x, c.y)
  {
    after, changes := tiles, [];
    var i := 0;
    while i < |entries|
      invariant i <= |entries|
      invariant after == ApplyAll(tiles, changes) == ApplyAll(tiles, entries[..i])
      invariant forall c :: c in changes ==> c in entries && InGrid(tiles, c.x, c.y)
    {
      var c := entries[i];
      assert entries[..i + 1][..i] == entries[..i];
      if InGrid(after, c.x, c.y) && after[c.y][c.x] != c.physics {
        assert (changes + [c])[..|changes|] == changes;
        after := after[c.y := after[c.y][c.x := c.physics]];
        changes := changes + [c];
      } else {
        SameGrid(after, Set(after, c));
      }
      i := i + 1;
    }
    assert entries[..i] == entries;
  }
}
