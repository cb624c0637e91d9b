/**
 * The OpenGL voxel demo (testgame.cpp): a 16x16x16 block world generated in
 * layers per column, the touch/mouse state machine that steers the camera, and
 * the per-frame walk, descent and single-sample collision step of the game loop.
 *
 * Floating-point positions and angles are modelled as exact reals; the terrain
 * height (a sin/cos formula in the source) is a parameter `height(x, z)`, and the
 * heading's sin/cos products are the parameters `dx`, `dz` of a frame.
 */
module Voxel {

  /** Block kinds, in the order of the source's enumeration (BLOCK_AIR = 0 .. BLOCK_WATER = 6). */
  datatype BlockType = Air | Grass | Dirt | Stone | Wood | Leaf | Water

  const WorldSizeX: nat := 16
  const WorldSizeY: nat := 16
  const WorldSizeZ: nat := 16
  /** Every cell strictly below this height is overwritten with water. */
  const WaterLevel: int := 5
  /** Dirt fills the cells strictly between h - DirtDepth and the surface h. */
  const DirtDepth: int := 3
  /** Per-frame descent while crouching, and under gravity otherwise. */
  const CrouchStep: real := 0.1
  const GravityStep: real := 0.05

  /** A block the player stands on: anything but air and water. */
  predicate IsSolid(b: BlockType) {
    b != Air && b != Water
  }

  // ---------------------------------------------------------------------------
  // World generation
  // ---------------------------------------------------------------------------

  /** The terrain layer of cell y in a column whose surface is at h, before the water pass. */
  function TerrainBlock(y: int, h: int): BlockType {
    if y > h then Air
    else if y == h then Grass
    else if y > h - DirtDepth then Dirt
    else Stone
  }

  /** What generation finally leaves in cell y of a column of height h. */
  function GeneratedBlock(y: int, h: int): BlockType {
    if y < WaterLevel then Water else TerrainBlock(y, h)
  }

  /**
   * The layering of a column of height h, for the block b at level y: stone up
   * to a dirt band DirtDepth - 1 cells deep, one grass cell at h, air above,
   * each kind exactly where the layering puts it.
   */
  predicate Layered(b: BlockType, y: int, h: int) {
    && (b == Air <==> y > h)
    && (b == Grass <==> y == h)
    && (b == Dirt <==> h - DirtDepth < y < h)
    && (b == Stone <==> y <= h - DirtDepth)
  }

  /** Above the water line a generated cell is where the layering puts it. */
  lemma ColumnLayers(y: int, h: int)
    requires y >= WaterLevel
    ensures Layered(GeneratedBlock(y, h), y, h)
  {
  }

  /**
   * The whole generated column of height h, bottom (index 0) to top: water below
   * the water line, and above it the layering of ColumnLayers.
   */
  function GeneratedColumn(h: int): (column: seq<BlockType>)
    ensures |column| == WorldSizeY
    ensures forall y | 0 <= y < WorldSizeY && y < WaterLevel :: column[y] == Water
    ensures forall y | WaterLevel <= y < WorldSizeY :: Layered(column[y], y, h)
  {
    seq(WorldSizeY, y => GeneratedBlock(y, h))
  }

  /** The water pass overrides the terrain below the water line, whatever the column height. */
  lemma WaterBelowLevel(y: int, h: int)
    requires y < WaterLevel
    ensures GeneratedBlock(y, h) == Water
  {
  }

  /** Generation never produces wood or leaves, although the enumeration has them. */
  lemma OnlyTerrainKinds(y: int, h: int)
    ensures GeneratedBlock(y, h) in {Air, Grass, Dirt, Stone, Water}
  {
  }

  /**
   * When the surface is above the water line, the grass cell is solid and
   * every cell above it is not: the surface is the topmost solid cell.
   */
  lemma SurfaceIsTopSolid(y: int, h: int)
    requires WaterLevel <= h
    ensures IsSolid(GeneratedBlock(h, h))
    ensures y > h ==> !IsSolid(GeneratedBlock(y, h))
  {
  }

  // ---------------------------------------------------------------------------
  // Collision arithmetic of the game loop
  // ---------------------------------------------------------------------------

  /** static_cast<int> of a float: truncation toward zero. */
  function Trunc(r: real): (t: int)
    ensures 0.0 <= r ==> 0 <= t && t as real <= r < t as real + 1.0
    ensures r < 0.0 ==> t <= 0 && t as real - 1.0 < r <= t as real
  {
    if r >= 0.0 then r.Floor else -((-r).Floor)
  }

  /** The vertical index clamp: below 0 becomes 0, at or above the top becomes the top layer. */
  function ClampLayer(b: int): (c: int)
    ensures 0 <= c < WorldSizeY
    ensures 0 <= b < WorldSizeY ==> c == b
    ensures b < 0 ==> c == 0
    ensures b >= WorldSizeY ==> c == WorldSizeY - 1
  {
    if b < 0 then 0 else if b >= WorldSizeY then WorldSizeY - 1 else b
  }

  /** The column a position falls into is on the grid (the source does not check this). */
  predicate InGrid(bx: int, bz: int) {
    0 <= bx < WorldSizeX && 0 <= bz < WorldSizeZ
  }

  /** The height after one frame's descent: crouching drops faster than gravity. */
  function Lowered(y: real, crouching: bool): real {
    if crouching then y - CrouchStep else y - GravityStep
  }

  /**
   * The collision snap: look up the cell at the truncated, clamped height in the
   * player's column; on a solid cell the player is put on top of it.
   */
  function Resolve(y: real, column: seq<BlockType>): real
    requires |column| == WorldSizeY
  {
    var b := ClampLayer(Trunc(y));
    if IsSolid(column[b]) then b as real + 1.0 else y
  }

  /** One frame of vertical motion in a fixed column: descend, then collide. */
  function FallStep(y: real, crouching: bool, column: seq<BlockType>): real
    requires |column| == WorldSizeY
  {
    Resolve(Lowered(y, crouching), column)
  }

  /** n idle frames (gravity only) in a fixed column. */
  function Falls(y: real, n: nat, column: seq<BlockType>): real
    requires |column| == WorldSizeY
  {
    if n == 0 then y else FallStep(Falls(y, n - 1, column), false, column)
  }

  /** A coordinate after i frames of walking d per frame from c0, one frame at a time. */
  function DragPos(c0: real, d: real, i: nat): real {
    if i == 0 then c0 else DragPos(c0, d, i - 1) + d
  }

  /** Walking nowhere stays put. */
  lemma {:induction false} DragPosStill(c0: real, i: nat)
    ensures DragPos(c0, 0.0, i) == c0
  {
    if i > 0 {
      DragPosStill(c0, i - 1);
    }
  }

  /** i frames of walking d per frame cover i times d. */
  lemma {:induction false} DragPosClosed(c0: real, d: real, i: nat)
    ensures DragPos(c0, d, i) == c0 + d * i as real
  {
    if i > 0 {
      DragPosClosed(c0, d, i - 1);
      assert d * i as real == d * (i - 1) as real + d;
    }
  }

  /**
   * The snap moves the player exactly when the looked-up cell is solid, and then
   * onto the top face of that cell; otherwise the height is left as it is.
   */
  lemma ResolveSnapsOnSolid(y: real, column: seq<BlockType>)
    requires |column| == WorldSizeY
    ensures var b := ClampLayer(Trunc(y));
      (IsSolid(column[b]) ==> Resolve(y, column) == b as real + 1.0) &&
      (!IsSolid(column[b]) ==> Resolve(y, column) == y)
    ensures Resolve(y, column) != y ==> 1.0 <= Resolve(y, column) <= WorldSizeY as real
  {
  }

  /** A column that is all air (or water) never stops the player: off-grid reads give no collision. */
  lemma NoSolidNoCollision(y: real, column: seq<BlockType>)
    requires |column| == WorldSizeY
    requires forall i | 0 <= i < WorldSizeY :: !IsSolid(column[i])
    ensures Resolve(y, column) == y
  {
    assert !IsSolid(column[ClampLayer(Trunc(y))]);
  }

  /**
   * One frame from at or above the surface of a generated column: the player
   * descends freely while that keeps them at or above the surface, and otherwise
   * lands exactly on top of the grass cell.
   */
  lemma StepFromAbove(y: real, h: int, crouching: bool)
    requires WaterLevel <= h < WorldSizeY - 1
    requires y >= h as real + 1.0
    ensures var y1 := Lowered(y, crouching);
      FallStep(y, crouching, GeneratedColumn(h)) == if y1 >= h as real + 1.0 then y1 else h as real + 1.0
  {
    var y1 := Lowered(y, crouching);
    var t := Trunc(y1);
    var column := GeneratedColumn(h);
    assert 0.0 <= y1;
    if y1 >= h as real + 1.0 {
      assert t >= h + 1;
      var b := ClampLayer(t);
      assert h < b;
      assert column[b] == Air;
    } else {
      assert t == h;
      assert column[h] == Grass;
    }
  }

  /** A player standing on the surface stays there, frame after frame, crouching or not. */
  lemma RestingIsStable(h: int, crouching: bool)
    requires WaterLevel <= h < WorldSizeY - 1
    ensures FallStep(h as real + 1.0, crouching, GeneratedColumn(h)) == h as real + 1.0
  {
    StepFromAbove(h as real + 1.0, h, crouching);
  }

  /** A player at or above the surface is never taken below it. */
  lemma NeverBelowSurface(y: real, h: int, crouching: bool)
    requires WaterLevel <= h < WorldSizeY - 1
    requires y >= h as real + 1.0
    ensures FallStep(y, crouching, GeneratedColumn(h)) >= h as real + 1.0
  {
    StepFromAbove(y, h, crouching);
  }

  /**
   * Falling under gravity onto a generated column: after n frames the player is
   * 0.05 * n lower, until that would take them below the surface, from then on
   * they stand exactly on it.
   */
  lemma {:induction false} GravityConverges(y: real, h: int, n: nat)
    requires WaterLevel <= h < WorldSizeY - 1
    requires y >= h as real + 1.0
    ensures var target := y - GravityStep * n as real;
      Falls(y, n, GeneratedColumn(h)) == if target >= h as real + 1.0 then target else h as real + 1.0
  {
    if n > 0 {
      GravityConverges(y, h, n - 1);
      var before := Falls(y, n - 1, GeneratedColumn(h));
      StepFromAbove(before, h, false);
    }
  }

  // ---------------------------------------------------------------------------
  // Touch and mouse state machine
  // ---------------------------------------------------------------------------

  /** The three event kinds handleTouchEvent switches on. */
  datatype TouchAction = Press | Move | Release

  /** One call of handleTouchEvent: the event, the cursor position and the screen width. */
  datatype TouchEvent = TouchEvent(action: TouchAction, x: real, y: real, screenWidth: int)

  /** The touch-tracking and camera globals that handleTouchEvent reads and writes. */
  datatype Controls = Controls(
    isMoving: bool, isCrouching: bool, touchRightSide: bool,
    startX: real, startY: real, currentX: real, currentY: real,
    rotation: real, tilt: real)

  /** C integer division screenWidth / 2, which truncates toward zero. */
  function HalfWidth(screenWidth: int): (half: int)
    ensures 0 <= screenWidth ==> 0 <= 2 * half <= screenWidth <= 2 * half + 1
    ensures screenWidth < 0 ==> 2 * half - 1 <= screenWidth <= 2 * half <= 0
  {
    if screenWidth >= 0 then screenWidth / 2 else -((-screenWidth) / 2)
  }

  /** A touch strictly right of the middle of the screen. */
  predicate OnRightHalf(x: real, screenWidth: int) {
    x > HalfWidth(screenWidth) as real
  }

  /** The tilt limit: at most 90 degrees up or down. */
  function ClampTilt(t: real): (r: real)
    ensures -90.0 <= r <= 90.0
    ensures -90.0 <= t <= 90.0 ==> r == t
    ensures t > 90.0 ==> r == 90.0
    ensures t < -90.0 ==> r == -90.0
  {
    if t > 90.0 then 90.0 else if t < -90.0 then -90.0 else t
  }

  /** A drag in progress: the left half was pressed and has not been released. */
  predicate Dragging(c: Controls) {
    c.isMoving && !c.touchRightSide
  }

  /** The effect of one handleTouchEvent call on the controls. */
  function Touch(c: Controls, e: TouchEvent): Controls {
    match e.action
    case Press =>
      if OnRightHalf(e.x, e.screenWidth) then
        c.(isCrouching := true, touchRightSide := true)
      else
        c.(isMoving := true, startX := e.x, startY := e.y,
           currentX := e.x, currentY := e.y, touchRightSide := false)
    case Move =>
      if Dragging(c) then
        c.(currentX := e.x, currentY := e.y,
           rotation := c.rotation + (e.x - c.startX) * 0.5,
           tilt := ClampTilt(c.tilt + (e.y - c.startY) * 0.3),
           startX := e.x, startY := e.y)
      else
        c
    case Release =>
      if c.touchRightSide then c.(isCrouching := false) else c.(isMoving := false)
  }

  /** A run of events, handled in order. */
  function TouchAll(c: Controls, events: seq<TouchEvent>): Controls
    decreases |events|
  {
    if events == [] then c else TouchAll(Touch(c, events[0]), events[1..])
  }

  /** A press on the left half starts a drag at the pressed point and leaves crouching and the camera alone. */
  lemma PressLeftStartsDrag(c: Controls, x: real, y: real, screenWidth: int)
    requires !OnRightHalf(x, screenWidth)
    ensures var r := Touch(c, TouchEvent(Press, x, y, screenWidth));
      r.isMoving && !r.touchRightSide && r.isCrouching == c.isCrouching &&
      r.startX == r.currentX == x && r.startY == r.currentY == y &&
      r.rotation == c.rotation && r.tilt == c.tilt
  {
  }

  /** A press on the right half sets the crouch and right-side flags and changes nothing else. */
  lemma PressRightCrouches(c: Controls, x: real, y: real, screenWidth: int)
    requires OnRightHalf(x, screenWidth)
    ensures Touch(c, TouchEvent(Press, x, y, screenWidth)) == c.(isCrouching := true, touchRightSide := true)
  {
  }

  /**
   * A move during a drag turns the camera by half the horizontal and 0.3 of the
   * vertical cursor delta (tilt clamped) and restarts the delta at the cursor;
   * a move in any other state changes nothing.
   */
  lemma MoveTurnsCamera(c: Controls, x: real, y: real, screenWidth: int)
    ensures var r := Touch(c, TouchEvent(Move, x, y, screenWidth));
      if Dragging(c) then
        r.rotation == c.rotation + (x - c.startX) * 0.5 &&
        r.tilt == ClampTilt(c.tilt + (y - c.startY) * 0.3) &&
        r.startX == r.currentX == x && r.startY == r.currentY == y &&
        r.isMoving == c.isMoving && r.isCrouching == c.isCrouching && r.touchRightSide == c.touchRightSide
      else
        r == c
  {
  }

  /** A release clears crouching after a right-side press and the drag otherwise; the other flag is untouched. */
  lemma ReleaseClearsOneFlag(c: Controls, x: real, y: real, screenWidth: int)
    ensures Touch(c, TouchEvent(Release, x, y, screenWidth)) ==
      if c.touchRightSide then c.(isCrouching := false) else c.(isMoving := false)
  {
  }

  /** Every event keeps the tilt within [-90, 90] once it is there; a drag step puts it there. */
  lemma TouchKeepsTilt(c: Controls, e: TouchEvent)
    requires -90.0 <= c.tilt <= 90.0 || (e.action == Move && Dragging(c))
    ensures -90.0 <= Touch(c, e).tilt <= 90.0
  {
  }

  /** Any run of events keeps the tilt within [-90, 90] when it starts there. */
  lemma {:induction false} TouchAllKeepsTilt(c: Controls, events: seq<TouchEvent>)
    requires -90.0 <= c.tilt <= 90.0
    ensures -90.0 <= TouchAll(c, events).tilt <= 90.0
    decreases |events|
  {
    if events != [] {
      TouchKeepsTilt(c, events[0]);
      TouchAllKeepsTilt(Touch(c, events[0]), events[1..]);
    }
  }

  /**
   * Because every move restarts the delta at the cursor, the camera turn of a
   * drag telescopes: after any run of moves the rotation has grown by half of the
   * distance from the drag start to the last cursor position, and the drag is
   * still in progress from that position.
   */
  lemma {:induction false} DragTelescopes(c: Controls, events: seq<TouchEvent>)
    requires Dragging(c)
    requires events != []
    requires forall i | 0 <= i < |events| :: events[i].action == Move
    ensures var r := TouchAll(c, events);
      r.rotation == c.rotation + (events[|events| - 1].x - c.startX) * 0.5 &&
      Dragging(r) && r.isCrouching == c.isCrouching && r.startX == events[|events| - 1].x
    decreases |events|
  {
    var next := Touch(c, events[0]);
    if |events| > 1 {
      DragTelescopes(next, events[1..]);
    }
  }

  // ---------------------------------------------------------------------------
  // Source-as-written collision index
  // ---------------------------------------------------------------------------

  /** The cell indices the game loop computes before reading the world; x and z are never checked. */
  function SourceCellIndex(px: real, py: real, pz: real): (int, int, int) {
    (Trunc(px), ClampLayer(Trunc(py)), Trunc(pz))
  }

  /**
   * Holding the left half of the screen from the spawn point (8, 20, 8): no move
   * event is ever sent, so the heading stays 0 and each frame adds cos(0) * 0.1
   * to z (VoxelGame.RunDragFrames gives z = 8 + 0.1 * n after n frames). After 79
   * frames the player is still in the last row of cells; after 80 the source
   * reads world[..][..][16], one past the end, whatever the height py is by then.
   * Truncation toward zero would likewise map a coordinate of -1.0 to index -1.
   */
  lemma SourceIndexLeavesGrid(py: real)
    ensures SourceCellIndex(8.0, py, 8.0 + 0.1 * 79 as real).2 == WorldSizeZ - 1
    ensures SourceCellIndex(8.0, py, 8.0 + 0.1 * 80 as real).2 == WorldSizeZ
    ensures !InGrid(SourceCellIndex(8.0, py, 8.0 + 0.1 * 80 as real).0, SourceCellIndex(8.0, py, 8.0 + 0.1 * 80 as real).2)
    ensures SourceCellIndex(-1.0, py, 8.0).0 == -1
  {
  }

  // ---------------------------------------------------------------------------
  // The game state
  // ---------------------------------------------------------------------------

  /** The source's global state: the world array, the player pose and the touch-tracking globals. */
  class VoxelGame {
    var world: array3<BlockType>
    var playerX: real
    var playerY: real
    var playerZ: real
    var playerRotation: real
    var playerTilt: real
    var touchStartX: real
    var touchStartY: real
    var touchCurrentX: real
    var touchCurrentY: real
    var isMoving: bool
    var isCrouching: bool
    var touchRightSide: bool

    ghost predicate Valid()
      reads this`world
    {
      world.Length0 == WorldSizeX && world.Length1 == WorldSizeY && world.Length2 == WorldSizeZ
    }

    /** The touch-tracking and camera globals as one value. */
    function ControlState(): Controls
      reads this
    {
      Controls(isMoving, isCrouching, touchRightSide,
               touchStartX, touchStartY, touchCurrentX, touchCurrentY,
               playerRotation, playerTilt)
    }

    /** The world was filled from the height function: every cell as GeneratedBlock says. */
    ghost predicate GeneratedFrom(height: (int, int) -> int)
      requires Valid()
      reads this`world, world
    {
      forall x, y, z | 0 <= x < WorldSizeX && 0 <= y < WorldSizeY && 0 <= z < WorldSizeZ ::
        world[x, y, z] == GeneratedBlock(y, height(x, z))
    }

    /**
     * The column the collision check reads at (bx, bz): inside the grid the
     * world's cells; off the grid (which the source does not check) a column
     * with no solid cell, so an off-grid lookup finds nothing to stand on.
     */
    function ColumnAt(bx: int, bz: int): (column: seq<BlockType>)
      requires Valid()
      reads this`world, world
      ensures |column| == WorldSizeY
      ensures InGrid(bx, bz) ==> forall y | 0 <= y < WorldSizeY :: column[y] == world[bx, y, bz]
      ensures !InGrid(bx, bz) ==> forall y | 0 <= y < WorldSizeY :: !IsSolid(column[y])
    {
      var w := world;
      if InGrid(bx, bz) then
        seq(WorldSizeY, y requires 0 <= y < WorldSizeY reads w => w[bx, y, bz])
      else
        seq(WorldSizeY, y => Air)
    }

    /** The hardened lookup: at a position off the grid the collision step never moves the player. */
    lemma OffGridNoCollision(y: real, bx: int, bz: int)
      requires Valid() && !InGrid(bx, bz)
      ensures Resolve(y, ColumnAt(bx, bz)) == y
    {
      NoSolidNoCollision(y, ColumnAt(bx, bz));
    }

    /** The globals' initial values; the world array starts zero-filled, that is, all air. */
    constructor ()
      ensures Valid() && fresh(world)
      ensures forall x, y, z | 0 <= x < WorldSizeX && 0 <= y < WorldSizeY && 0 <= z < WorldSizeZ ::
        world[x, y, z] == Air
      ensures playerX == 8.0 && playerY == 20.0 && playerZ == 8.0
      ensures ControlState() == Controls(false, false, false, 0.0, 0.0, 0.0, 0.0, 0.0, 0.0)
    {
      world := new BlockType[WorldSizeX, WorldSizeY, WorldSizeZ]((x, y, z) => Air);
      playerX, playerY, playerZ := 8.0, 20.0, 8.0;
      playerRotation, playerTilt := 0.0, 0.0;
      touchStartX, touchStartY, touchCurrentX, touchCurrentY := 0.0, 0.0, 0.0, 0.0;
      isMoving, isCrouching, touchRightSide := false, false, false;
    }

    /**
     * generateWorld: for each column, the layers of its height, then water over
     * every cell below the water line. Every cell of the grid is assigned.
     */
    method GenerateWorld(height: (int, int) -> int)
      requires Valid()
      modifies world
      ensures GeneratedFrom(height)
    {
      var x := 0;
      while x < WorldSizeX
        invariant 0 <= x <= WorldSizeX
        invariant forall i, j, k | 0 <= i < x && 0 <= j < WorldSizeY && 0 <= k < WorldSizeZ ::
          world[i, j, k] == GeneratedBlock(j, height(i, k))
      {
        var z := 0;
        while z < WorldSizeZ
          invariant 0 <= z <= WorldSizeZ
          invariant forall i, j, k | 0 <= i < x && 0 <= j < WorldSizeY && 0 <= k < WorldSizeZ ::
            world[i, j, k] == GeneratedBlock(j, height(i, k))
          invariant forall j, k | 0 <= j < WorldSizeY && 0 <= k < z ::
            world[x, j, k] == GeneratedBlock(j, height(x, k))
        {
          var h := height(x, z);
          var y := 0;
          while y < WorldSizeY
            invariant 0 <= y <= WorldSizeY
            invariant forall i, j, k | 0 <= i < x && 0 <= j < WorldSizeY && 0 <= k < WorldSizeZ ::
              world[i, j, k] == GeneratedBlock(j, height(i, k))
            invariant forall j, k | 0 <= j < WorldSizeY && 0 <= k < z ::
              world[x, j, k] == GeneratedBlock(j, height(x, k))
            invariant forall j | 0 <= j < y :: world[x, j, z] == GeneratedBlock(j, h)
          {
            if y > h {
              world[x, y, z] := Air;
            } else if y == h {
              world[x, y, z] := Grass;
            } else if y > h - DirtDepth {
              world[x, y, z] := Dirt;
            } else {
              world[x, y, z] := Stone;
            }
            if y < WaterLevel {
              world[x, y, z] := Water;
            }
            y := y + 1;
          }
          z := z + 1;
        }
        x := x + 1;
      }
    }

    /** After generation, the column the collision check reads is the generated column of its height. */
    lemma ColumnIsGenerated(height: (int, int) -> int, bx: int, bz: int)
      requires Valid() && GeneratedFrom(height)
      requires InGrid(bx, bz)
      ensures ColumnAt(bx, bz) == GeneratedColumn(height(bx, bz))
    {
      var column := ColumnAt(bx, bz);
      forall y | 0 <= y < WorldSizeY
        ensures column[y] == GeneratedColumn(height(bx, bz))[y]
      {
        assert column[y] == world[bx, y, bz];
      }
    }

    /** handleTouchEvent: one touch event applied to the globals. */
    method HandleTouchEvent(e: TouchEvent)
      modifies this`isMoving, this`isCrouching, this`touchRightSide,
        this`touchStartX, this`touchStartY, this`touchCurrentX, this`touchCurrentY,
        this`playerRotation, this`playerTilt
      ensures ControlState() == Touch(old(ControlState()), e)
    {
      var isRightSide := e.x > HalfWidth(e.screenWidth) as real;
      match e.action {
        case Press =>
          if isRightSide {
            isCrouching := true;
            touchRightSide := true;
          } else {
            isMoving := true;
            touchStartX, touchStartY := e.x, e.y;
            touchCurrentX, touchCurrentY := e.x, e.y;
            touchRightSide := false;
          }
        case Move =>
          if isMoving && !touchRightSide {
            touchCurrentX, touchCurrentY := e.x, e.y;
            playerRotation := playerRotation + (touchCurrentX - touchStartX) * 0.5;
            playerTilt := playerTilt + (touchCurrentY - touchStartY) * 0.3;
            if playerTilt > 90.0 {
              playerTilt := 90.0;
            }
            if playerTilt < -90.0 {
              playerTilt := -90.0;
            }
            touchStartX, touchStartY := touchCurrentX, touchCurrentY;
          }
        case Release =>
          if touchRightSide {
            isCrouching := false;
          } else {
            isMoving := false;
          }
      }
    }

    /**
     * One frame of the game loop's movement section: walk along the heading
     * while dragging (dx, dz stand for sin and cos of the heading times 0.1),
     * descend, then snap onto a solid cell found at the truncated position.
     */
    method Tick(dx: real, dz: real)
      requires Valid()
      modifies this`playerX, this`playerY, this`playerZ
      ensures playerX == old(playerX) + (if isMoving && !touchRightSide then dx else 0.0)
      ensures playerZ == old(playerZ) + (if isMoving && !touchRightSide then dz else 0.0)
      ensures playerY == FallStep(old(playerY), isCrouching, ColumnAt(Trunc(playerX), Trunc(playerZ)))
    {
      if isMoving && !touchRightSide {
        playerX := playerX + dx;
        playerZ := playerZ + dz;
      }
      if isCrouching {
        playerY := playerY - CrouchStep;
      } else {
        playerY := playerY - GravityStep;
      }
      var blockX := Trunc(playerX);
      var blockY := Trunc(playerY);
      var blockZ := Trunc(playerZ);
      if blockY < 0 {
        blockY := 0;
      }
      if blockY >= WorldSizeY {
        blockY := WorldSizeY - 1;
      }
      if InGrid(blockX, blockZ) && IsSolid(world[blockX, blockY, blockZ]) {
        playerY := blockY as real + 1.0;
      }
    }

    /**
     * n frames of the game loop while a drag is in progress: the player walks
     * (dx, dz) each frame, so x and z advance by n times the displacement, and
     * each frame lowers and snaps them in the column under their new position.
     */
    method RunDragFrames(n: nat, dx: real, dz: real)
      requires Valid() && Dragging(ControlState())
      modifies this`playerX, this`playerY, this`playerZ
      ensures playerX == old(playerX) + dx * n as real
      ensures playerZ == old(playerZ) + dz * n as real
      ensures playerY == DraggedHeight(old(playerY), old(playerX), old(playerZ), dx, dz, isCrouching, n)
    {
      ghost var x0, y0, z0 := playerX, playerY, playerZ;
      var i := 0;
      while i < n
        invariant 0 <= i <= n
        invariant playerX == DragPos(x0, dx, i) && playerZ == DragPos(z0, dz, i)
        invariant playerY == DraggedHeight(y0, x0, z0, dx, dz, isCrouching, i)
      {
        Tick(dx, dz);
        i := i + 1;
      }
      DragPosClosed(x0, dx, n);
      DragPosClosed(z0, dz, n);
    }

    /**
     * The height after n drag frames from (x0, y, z0): frame i lowers the player
     * and snaps them in the column under (x0 + i dx, z0 + i dz).
     */
    function DraggedHeight(y: real, x0: real, z0: real, dx: real, dz: real, crouching: bool, n: nat): real
      requires Valid()
      reads this`world, world
    {
      if n == 0 then y
      else
        FallStep(DraggedHeight(y, x0, z0, dx, dz, crouching, n - 1), crouching,
                 ColumnAt(Trunc(DragPos(x0, dx, n)), Trunc(DragPos(z0, dz, n))))
    }

    /** A drag with no displacement is the fall of RunFallFrames in place. */
    lemma {:induction false} DragInPlaceFalls(y: real, x0: real, z0: real, n: nat)
      requires Valid()
      ensures DraggedHeight(y, x0, z0, 0.0, 0.0, false, n) == Falls(y, n, ColumnAt(Trunc(x0), Trunc(z0)))
    {
      if n > 0 {
        DragInPlaceFalls(y, x0, z0, n - 1);
        DragPosStill(x0, n);
        DragPosStill(z0, n);
        assert ColumnAt(Trunc(DragPos(x0, 0.0, n)), Trunc(DragPos(z0, 0.0, n))) == ColumnAt(Trunc(x0), Trunc(z0));
      }
    }

    /**
     * Off the grid a drag only lowers the player: n frames take y down by the
     * fall rate n times, since no column there has a solid cell.
     */
    lemma {:induction false} DragOffGridSinks(y: real, x0: real, z0: real, dx: real, dz: real, crouching: bool, n: nat)
      requires Valid()
      requires forall i: nat | 1 <= i <= n :: !InGrid(Trunc(DragPos(x0, dx, i)), Trunc(DragPos(z0, dz, i)))
      ensures DraggedHeight(y, x0, z0, dx, dz, crouching, n) == y - (if crouching then CrouchStep else GravityStep) * n as real
    {
      if n > 0 {
        DragOffGridSinks(y, x0, z0, dx, dz, crouching, n - 1);
        var before := DraggedHeight(y, x0, z0, dx, dz, crouching, n - 1);
        OffGridNoCollision(Lowered(before, crouching), Trunc(DragPos(x0, dx, n)), Trunc(DragPos(z0, dz, n)));
      }
    }

    /**
     * n frames of the game loop with no drag in progress and no crouching: the
     * player does not walk, and each frame is one gravity step in the column
     * under them.
     */
    method RunFallFrames(n: nat, dx: real, dz: real)
      requires Valid() && !isCrouching && !Dragging(ControlState())
      modifies this`playerX, this`playerY, this`playerZ
      ensures playerX == old(playerX) && playerZ == old(playerZ)
      ensures playerY == Falls(old(playerY), n, ColumnAt(Trunc(playerX), Trunc(playerZ)))
    {
      ghost var column := ColumnAt(Trunc(playerX), Trunc(playerZ));
      var i := 0;
      while i < n
        invariant 0 <= i <= n
        invariant playerX == old(playerX) && playerZ == old(playerZ)
        invariant playerY == Falls(old(playerY), i, column)
      {
        Tick(dx, dz);
        i := i + 1;
      }
    }

    /**
     * n frames of the game loop with no drag in progress and no crouching, over a
     * generated world: whatever the heading's displacement (dx, dz), the player
     * does not walk, and falls 0.05 per frame until they stand on the surface of
     * their column, and stays there.
     */
    method RunIdleFrames(height: (int, int) -> int, n: nat, dx: real, dz: real)
      requires Valid() && GeneratedFrom(height) && !isCrouching && !Dragging(ControlState())
      requires InGrid(Trunc(playerX), Trunc(playerZ))
      requires WaterLevel <= height(Trunc(playerX), Trunc(playerZ)) < WorldSizeY - 1
      requires playerY >= height(Trunc(playerX), Trunc(playerZ)) as real + 1.0
      modifies this`playerX, this`playerY, this`playerZ
      ensures playerX == old(playerX) && playerZ == old(playerZ)
      ensures var h := height(Trunc(playerX), Trunc(playerZ));
        var target := old(playerY) - GravityStep * n as real;
        playerY == if target >= h as real + 1.0 then target else h as real + 1.0
    {
      ColumnIsGenerated(height, Trunc(playerX), Trunc(playerZ));
      RunFallFrames(n, dx, dz);
      GravityConverges(old(playerY), height(Trunc(playerX), Trunc(playerZ)), n);
    }
  }
}
