/**
  The tile grid: a HEIGHT x WIDTH array of cells, 1 for wall and 0 for floor,
  each cell TILE_SIZE world units wide. Out-of-bounds tiles count as walls.
 */
module Tiles {
  import opened Geometry

  const TILE_SIZE: int := 32
  const WIDTH: int := 100
  const HEIGHT: int := 100

  predicate InBounds(tx: int, ty: int) {
    0 <= tx < WIDTH && 0 <= ty < HEIGHT
  }

  /** The outer ring of the grid. */
  predicate OnBorder(tx: int, ty: int) {
    tx == 0 || ty == 0 || tx == WIDTH - 1 || ty == HEIGHT - 1
  }

  /** Tile coordinate of a world coordinate: `(int)(v / TILE_SIZE)`. */
  function TileCoord(v: real): int { Trunc(v / TILE_SIZE as real) }

  /** The tile that contains a world point. */
  function TileOf(p: Vec): (int, int) { (TileCoord(p.x), TileCoord(p.y)) }

  /** The world-space square that tile (tx, ty) covers. */
  function TileRect(tx: int, ty: int): Rect {
    Rect(tx as real * TILE_SIZE as real, ty as real * TILE_SIZE as real,
         TILE_SIZE as real, TILE_SIZE as real)
  }

  /**
    The position, in the stream of random draws made while filling the example
    map row by row, of the draw that decides interior cell (x, y). Border cells
    take no draw.
   */
  function DrawIndex(x: int, y: int): nat
    requires InBounds(x, y) && !OnBorder(x, y)
  {
    (y - 1) * (WIDTH - 2) + (x - 1)
  }

  /** How many draws the fill has made before it reaches cell (x, y). */
  function DrawsBefore(x: int, y: int): nat
    requires 0 <= x <= WIDTH && 1 <= y <= HEIGHT - 1
  {
    (y - 1) * (WIDTH - 2) + (if x == 0 then 0 else if x < WIDTH then x - 1 else WIDTH - 2)
  }

  /** The value the example map gives cell (x, y) under the draw stream `draw`. */
  function ExampleCell(draw: nat -> int, x: int, y: int): int
    requires InBounds(x, y)
  {
    if OnBorder(x, y) || draw(DrawIndex(x, y)) < 10 then 1 else 0
  }

  /**
    Each interior cell consumes its own draw: the draw indices of distinct
    interior cells are distinct and all lie below (WIDTH-2)*(HEIGHT-2).
   */
  lemma DrawIndexInjective(x1: int, y1: int, x2: int, y2: int)
    requires InBounds(x1, y1) && !OnBorder(x1, y1)
    requires InBounds(x2, y2) && !OnBorder(x2, y2)
    ensures DrawIndex(x1, y1) < (WIDTH - 2) * (HEIGHT - 2)
    ensures DrawIndex(x1, y1) == DrawIndex(x2, y2) ==> x1 == x2 && y1 == y2
  {
  }

  /** A point whose x lies strictly between -TILE_SIZE and 0 is in tile column 0, like one in [0, TILE_SIZE). */
  lemma TileCoordNearZero(v: real)
    requires -(TILE_SIZE as real) < v < TILE_SIZE as real
    ensures TileCoord(v) == 0
  {
  }

  /** The world queries whose code is not part of this model: A* search and line of sight. */
  datatype Nav = Nav(findPath: (Vec, Vec) -> seq<Vec>, lineOfSight: (Vec, Vec) -> bool)

  class Tilemap {
    /** `map[y][x]` of the source: row index first. */
    const cells: array2<int>

    ghost predicate Valid() {
      cells.Length0 == HEIGHT && cells.Length1 == WIDTH
    }

    /** A fresh map; the source leaves the cells unset until a map is loaded, here they start as floor. */
    constructor ()
      ensures Valid() && fresh(cells)
      ensures forall y, x :: 0 <= y < HEIGHT && 0 <= x < WIDTH ==> cells[y, x] == 0
    {
      cells := new int[HEIGHT, WIDTH]((y, x) => 0);
    }

    /** Out-of-bounds tiles are solid; an in-bounds tile is solid exactly when its cell holds 1. */
    function IsWall(tx: int, ty: int): (r: bool)
      requires Valid()
      reads cells
      ensures !InBounds(tx, ty) ==> r
      ensures InBounds(tx, ty) ==> (r <==> cells[ty, tx] == 1)
    {
      if tx < 0 || ty < 0 || tx >= WIDTH || ty >= HEIGHT then true
      else cells[ty, tx] == 1
    }

    /** True when the tile containing `p` is not a wall. */
    predicate Free(p: Vec)
      requires Valid()
      reads cells
    {
      !IsWall(TileOf(p).0, TileOf(p).1)
    }

    /**
      Fills the map row by row: the border ring becomes wall and every interior
      cell becomes wall when its draw (GetRandomValue(0, 100), taken from the
      stream `draw`) is below 10.
     */
    method LoadExampleMap(draw: nat -> int)
      requires Valid()
      modifies cells
      ensures forall y, x :: 0 <= y < HEIGHT && 0 <= x < WIDTH ==> cells[y, x] == ExampleCell(draw, x, y)
      ensures forall y, x :: InBounds(x, y) && OnBorder(x, y) ==> cells[y, x] == 1
      ensures forall y, x :: 0 <= y < HEIGHT && 0 <= x < WIDTH ==> cells[y, x] == 0 || cells[y, x] == 1
      ensures forall y, x :: InBounds(x, y) && !OnBorder(x, y) ==>
                (cells[y, x] == 1 <==> draw(DrawIndex(x, y)) < 10)
    {
      var k := 0;
      for y := 0 to HEIGHT
        invariant y == 0 ==> k == 0
        invariant 1 <= y ==> k == (if y < HEIGHT then y - 1 else HEIGHT - 2) * (WIDTH - 2)
        invariant forall y', x :: 0 <= y' < y && 0 <= x < WIDTH ==> cells[y', x] == ExampleCell(draw, x, y')
      {
        ghost var k0 := k;
        for x := 0 to WIDTH
          invariant y == 0 ==> k == 0
          invariant 1 <= y ==> k == (if y == HEIGHT - 1 then k0 else DrawsBefore(x, y))
          invariant forall y', x' :: 0 <= y' < y && 0 <= x' < WIDTH ==> cells[y', x'] == ExampleCell(draw, x', y')
          invariant forall x' :: 0 <= x' < x ==> cells[y, x'] == ExampleCell(draw, x', y)
        {
          var border := x == 0 || y == 0 || x == WIDTH - 1 || y == HEIGHT - 1;
          var wall := border;
          if !border {
            assert k == DrawIndex(x, y);
            if draw(k) < 10 {
              wall := true;
            }
            k := k + 1;
          }
          cells[y, x] := if wall then 1 else 0;
        }
      }
    }

    /** The outcome of `resolveCollision`: the whole move, or no move at all. */
    function Resolve(pos: Vec, delta: Vec): (r: Vec)
      requires Valid()
      reads cells
      ensures r == pos.Plus(delta) || r == pos
      ensures Free(pos.Plus(delta)) ==> r == pos.Plus(delta)
      ensures !Free(pos.Plus(delta)) ==> r == pos
    {
      if Free(pos.Plus(delta)) then pos.Plus(delta) else pos
    }

    /**
      Moves `pos` by `delta` in place, then undoes the move when the tile that
      contains the destination is a wall. `radius` is accepted and not used.
     */
    method ResolveCollision(pos: Vec, radius: real, delta: Vec) returns (r: Vec)
      requires Valid()
      ensures r == Resolve(pos, delta)
      ensures Free(pos) ==> Free(r)
    {
      r := pos.Plus(delta);
      var tx := TileCoord(r.x);
      var ty := TileCoord(r.y);
      if IsWall(tx, ty) {
        r := r.Minus(delta);
      }
      assert r.Minus(pos) == Zero || r == pos.Plus(delta);
    }
  }

  /** A mover that starts on a floor tile stays on a floor tile, whatever the move. */
  lemma ResolveKeepsFloor(world: Tilemap, pos: Vec, delta: Vec)
    requires world.Valid() && world.Free(pos)
    ensures world.Free(world.Resolve(pos, delta))
  {
  }
}
