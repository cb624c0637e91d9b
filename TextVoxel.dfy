/**
 * The console variant of the voxel demo (testgamenomodul.cpp): a 10x5x10 world
 * generated in layers, a player whose heading turns in steps of 10 degrees and
 * wraps into [0, 360), jump and crouch, the per-column scan of the ground view,
 * and the key-to-command dispatch of the input loop.
 *
 * Floats are modelled as exact reals (the heading takes only multiples of 10,
 * which a float holds exactly); the terrain height is a parameter height(x, z)
 * and the sin/cos of the heading are parameters sinR, cosR of each move.
 */
module TextVoxel {
  import opened Wrappers

  /** The four block kinds of this variant: there is no water. */
  datatype BlockType = Air | Grass | Dirt | Stone

  const WorldSizeX: nat := 10
  const WorldSizeY: nat := 5
  const WorldSizeZ: nat := 10
  /** Dirt fills the cells strictly between h - DirtDepth and the surface h. */
  const DirtDepth: int := 2
  /** One look step, in degrees, and a full turn. */
  const TurnStep: real := 10.0
  const FullTurn: real := 360.0
  /** Horizontal distance of one move command. */
  const MoveStep: real := 0.5
  /** The lowest height crouching leaves the player at. */
  const CrouchFloor: real := 1.0

  // ---------------------------------------------------------------------------
  // World generation
  // ---------------------------------------------------------------------------

  /** The content of cell y in a column whose surface is at h. */
  function LayerBlock(y: int, h: int): BlockType {
    if y > h then Air
    else if y == h then Grass
    else if y > h - DirtDepth then Dirt
    else Stone
  }

  /** Each cell is air above h, grass at h, dirt in the one cell below, and stone further down. */
  lemma ColumnLayers(y: int, h: int)
    ensures LayerBlock(y, h) == Air <==> y > h
    ensures LayerBlock(y, h) == Grass <==> y == h
    ensures LayerBlock(y, h) == Dirt <==> h - DirtDepth < y < h
    ensures LayerBlock(y, h) == Stone <==> y <= h - DirtDepth
  {
  }

  /**
   * What the bottom-up ground-view scan meets first in a generated column: the
   * cell at y = 0 is never air, so the scan stops there, and once the surface is
   * at least DirtDepth high that cell is stone, not the grass on top.
   */
  lemma BottomScanShowsFloorBlock(h: int)
    requires 0 <= h
    ensures LayerBlock(0, h) != Air
    ensures h >= DirtDepth ==> LayerBlock(0, h) == Stone && LayerBlock(0, h) != LayerBlock(h, h)
  {
  }

  /**
   * What a top-down scan meets first in a generated column whose surface lies in
   * the world: every cell above the surface is air and the surface cell is grass.
   */
  lemma TopScanShowsSurface(h: int)
    requires 0 <= h < WorldSizeY
    ensures LayerBlock(h, h) == Grass
    ensures forall y | h < y < WorldSizeY :: LayerBlock(y, h) == Air
  {
  }

  // ---------------------------------------------------------------------------
  // Looking around
  // ---------------------------------------------------------------------------

  /** A heading the game keeps: degrees in [0, 360). */
  predicate InTurnRange(r: real) {
    0.0 <= r < FullTurn
  }

  /** lookLeft: ten degrees less, wrapped back up when it goes negative. */
  function TurnedLeft(r: real): real {
    var t := r - TurnStep;
    if t < 0.0 then t + FullTurn else t
  }

  /** lookRight: ten degrees more, wrapped back down when it reaches 360. */
  function TurnedRight(r: real): real {
    var t := r + TurnStep;
    if t >= FullTurn then t - FullTurn else t
  }

  /** Both turns keep a heading in [0, 360). */
  lemma TurnsStayInRange(r: real)
    requires InTurnRange(r)
    ensures InTurnRange(TurnedLeft(r)) && InTurnRange(TurnedRight(r))
  {
  }

  /** A left turn and a right turn undo each other, in either order. */
  lemma TurnsUndoEachOther(r: real)
    requires InTurnRange(r)
    ensures TurnedRight(TurnedLeft(r)) == r
    ensures TurnedLeft(TurnedRight(r)) == r
  {
  }

  /** The two look commands. */
  datatype Turn = Left | Right

  function TurnOnce(r: real, t: Turn): real {
    match t
    case Left => TurnedLeft(r)
    case Right => TurnedRight(r)
  }

  /** The heading after a run of look commands, applied first to last. */
  function Turned(r: real, turns: seq<Turn>): real
    decreases |turns|
  {
    if turns == [] then r else TurnOnce(Turned(r, turns[..|turns| - 1]), turns[|turns| - 1])
  }

  /** Right turns minus left turns. */
  function NetTurns(turns: seq<Turn>): int
    decreases |turns|
  {
    if turns == [] then 0
    else NetTurns(turns[..|turns| - 1]) + (if turns[|turns| - 1] == Right then 1 else -1)
  }

  /** The heading of k net right turns from 0: ten degrees times k, taken round the circle. */
  function Heading(k: int): real {
    ((k % 36) * 10) as real
  }

  /** One more turn moves the closed-form heading by one step round the circle. */
  lemma TurnStepsHeading(k: int)
    ensures TurnedRight(Heading(k)) == Heading(k + 1)
    ensures TurnedLeft(Heading(k)) == Heading(k - 1)
  {
    var m := k % 36;
    assert k == 36 * (k / 36) + m;
    if m == 35 {
      assert (k + 1) % 36 == 0 by {
        assert k + 1 == 36 * (k / 36 + 1);
      }
    } else {
      assert (k + 1) % 36 == m + 1 by {
        assert k + 1 == 36 * (k / 36) + (m + 1);
      }
    }
    if m == 0 {
      assert (k - 1) % 36 == 35 by {
        assert k - 1 == 36 * (k / 36 - 1) + 35;
      }
    } else {
      assert (k - 1) % 36 == m - 1 by {
        assert k - 1 == 36 * (k / 36) + (m - 1);
      }
    }
  }

  /**
   * From the initial heading 0, any run of look commands leaves the heading at
   * ten degrees times (right turns - left turns), reduced into [0, 360).
   */
  lemma {:induction false} TurnsFromZero(turns: seq<Turn>)
    ensures Turned(0.0, turns) == Heading(NetTurns(turns))
    ensures InTurnRange(Turned(0.0, turns))
    decreases |turns|
  {
    if turns != [] {
      var front := turns[..|turns| - 1];
      TurnsFromZero(front);
      TurnStepsHeading(NetTurns(front));
    }
  }

  // ---------------------------------------------------------------------------
  // Jumping, crouching and walking
  // ---------------------------------------------------------------------------

  /** jump: one unit up. */
  function Jumped(y: real): real {
    y + 1.0
  }

  /** crouch: one unit down, but never below the floor of 1.0. */
  function Crouched(y: real): real {
    var t := y - 1.0;
    if t < CrouchFloor then CrouchFloor else t
  }

  /** Crouching never goes below 1.0, and from 2.0 or above it drops exactly one unit. */
  lemma CrouchKeepsFloor(y: real)
    ensures Crouched(y) >= CrouchFloor
    ensures y >= 2.0 ==> Crouched(y) == y - 1.0
    ensures y < 2.0 ==> Crouched(y) == CrouchFloor
  {
  }

  /** A crouch undoes a jump from any height the game can be at. */
  lemma CrouchUndoesJump(y: real)
    requires y >= CrouchFloor
    ensures Crouched(Jumped(y)) == y
  {
  }

  /** n crouches in a row. */
  function CrouchedTimes(y: real, n: nat): real {
    if n == 0 then y else Crouched(CrouchedTimes(y, n - 1))
  }

  /** However many crouches are issued, the player stops at 1.0: n of them lower by n, down to that floor. */
  lemma {:induction false} RepeatedCrouch(y: real, n: nat)
    requires n > 0
    ensures CrouchedTimes(y, n) >= CrouchFloor
    ensures CrouchedTimes(y, n) == if y - n as real >= CrouchFloor then y - n as real else CrouchFloor
  {
    if n > 1 {
      RepeatedCrouch(y, n - 1);
    }
  }

  /** The eight movement commands and exit. */
  datatype Command = Forward | Backward | StrafeLeft | StrafeRight | LookLeft | LookRight | Jump | Crouch | Exit

  /** The (x, z) displacement of a command, when sinR and cosR are sin and cos of the heading. */
  function Offset(c: Command, sinR: real, cosR: real): (real, real) {
    match c
    case Forward => (sinR * MoveStep, cosR * MoveStep)
    case Backward => (-(sinR * MoveStep), -(cosR * MoveStep))
    case StrafeLeft => (cosR * MoveStep, -(sinR * MoveStep))
    case StrafeRight => (-(cosR * MoveStep), sinR * MoveStep)
    case _ => (0.0, 0.0)
  }

  /**
   * Backward is the reverse of forward, right the reverse of left, and left is
   * forward turned a quarter clockwise in the (x, z) plane: same length, square to it.
   */
  lemma MovesAreOpposedAndSquare(sinR: real, cosR: real)
    ensures var f, b := Offset(Forward, sinR, cosR), Offset(Backward, sinR, cosR);
      b.0 == -f.0 && b.1 == -f.1
    ensures var l, r := Offset(StrafeLeft, sinR, cosR), Offset(StrafeRight, sinR, cosR);
      r.0 == -l.0 && r.1 == -l.1
    ensures var f, l := Offset(Forward, sinR, cosR), Offset(StrafeLeft, sinR, cosR);
      l.0 == f.1 && l.1 == -f.0
    ensures var f, l := Offset(Forward, sinR, cosR), Offset(StrafeLeft, sinR, cosR);
      f.0 * l.0 + f.1 * l.1 == 0.0 && l.0 * l.0 + l.1 * l.1 == f.0 * f.0 + f.1 * f.1
  {
  }

  /** With a true sine and cosine every move covers exactly half a unit. */
  lemma MoveLength(c: Command, sinR: real, cosR: real)
    requires sinR * sinR + cosR * cosR == 1.0
    requires c in {Forward, Backward, StrafeLeft, StrafeRight}
    ensures var d := Offset(c, sinR, cosR); d.0 * d.0 + d.1 * d.1 == MoveStep * MoveStep
  {
    var d := Offset(c, sinR, cosR);
    assert d.0 * d.0 + d.1 * d.1 == MoveStep * MoveStep * (sinR * sinR + cosR * cosR);
  }

  /** The player's position and heading. */
  datatype Pose = Pose(x: real, y: real, z: real, rotation: real)

  /** The effect of one command on the pose. */
  function Apply(p: Pose, c: Command, sinR: real, cosR: real): Pose {
    match c
    case LookLeft => p.(rotation := TurnedLeft(p.rotation))
    case LookRight => p.(rotation := TurnedRight(p.rotation))
    case Jump => p.(y := Jumped(p.y))
    case Crouch => p.(y := Crouched(p.y))
    case Exit => p
    case _ =>
      var d := Offset(c, sinR, cosR);
      p.(x := p.x + d.0, z := p.z + d.1)
  }

  // ---------------------------------------------------------------------------
  // Key dispatch
  // ---------------------------------------------------------------------------

  /** The input loop's switch: a key's command, in either letter case; other keys do nothing. */
  function KeyCommand(key: char): Option<Command> {
    if key == 'w' || key == 'W' then Some(Forward)
    else if key == 's' || key == 'S' then Some(Backward)
    else if key == 'a' || key == 'A' then Some(StrafeLeft)
    else if key == 'd' || key == 'D' then Some(StrafeRight)
    else if key == 'q' || key == 'Q' then Some(LookLeft)
    else if key == 'e' || key == 'E' then Some(LookRight)
    else if key == ' ' then Some(Jump)
    else if key == 'c' || key == 'C' then Some(Crouch)
    else if key == 'x' || key == 'X' then Some(Exit)
    else None
  }

  /** The upper-case form of an ASCII lower-case letter. */
  function UpperAscii(c: char): char
    requires 'a' <= c <= 'z'
  {
    (c as int - 32) as char
  }

  /** Dispatch ignores letter case: a lower-case key and its capital give the same command. */
  lemma KeyCaseInsensitive(key: char)
    requires 'a' <= key <= 'z'
    ensures KeyCommand(key) == KeyCommand(UpperAscii(key))
  {
  }

  /** The space bar, and nothing else, is bound to jump. */
  lemma OnlySpaceJumps(key: char)
    ensures KeyCommand(key) == Some(Jump) <==> key == ' '
  {
  }

  /** The whitespace characters that formatted extraction skips (isspace in the C locale). */
  predicate IsSpace(c: char) {
    c == ' ' || c == '\t' || c == '\n' || c == '\r' || c == '\U{0B}' || c == '\U{0C}'
  }

  /**
   * The characters that successive `std::cin >> input` into a char deliver from
   * an input stream: each extraction skips leading whitespace, so exactly the
   * non-whitespace characters, in order.
   */
  function FormattedReads(input: seq<char>): (keys: seq<char>)
    ensures |keys| <= |input|
    ensures forall i | 0 <= i < |keys| :: !IsSpace(keys[i])
    ensures forall c | !IsSpace(c) :: multiset(keys)[c] == multiset(input)[c]
    decreases |input|
  {
    if input == [] then []
    else if IsSpace(input[0]) then
      assert input == [input[0]] + input[1..];
      FormattedReads(input[1..])
    else
      assert input == [input[0]] + input[1..];
      [input[0]] + FormattedReads(input[1..])
  }

  /**
   * The reads of a stream are the reads of its parts, in order: together with
   * the one-character case, FormattedReadsOne (a whitespace character gives
   * nothing, any other gives itself), this says the loop hands over the
   * non-whitespace characters in the order they were typed.
   */
  lemma {:induction false} FormattedReadsAppend(a: seq<char>, b: seq<char>)
    ensures FormattedReads(a + b) == FormattedReads(a) + FormattedReads(b)
    decreases |a|
  {
    if a == [] {
      assert a + b == b;
    } else {
      var ab := a + b;
      assert ab[0] == a[0];
      assert ab[1..] == a[1..] + b;
      FormattedReadsAppend(a[1..], b);
    }
  }

  lemma FormattedReadsOne(c: char)
    ensures FormattedReads([c]) == if IsSpace(c) then [] else [c]
  {
    assert [c][1..] == [];
  }

  /** The commands the input loop carries out for keys read in order, up to the first exit key. */
  function SessionCommands(keys: seq<char>): seq<Command>
    decreases |keys|
  {
    if keys == [] then []
    else match KeyCommand(keys[0])
      case None => SessionCommands(keys[1..])
      case Some(Exit) => []
      case Some(c) => [c] + SessionCommands(keys[1..])
  }

  /** Keys without whitespace never produce a jump. */
  lemma {:induction false} NoSpaceNoJump(keys: seq<char>)
    requires forall i | 0 <= i < |keys| :: !IsSpace(keys[i])
    ensures Jump !in SessionCommands(keys)
    decreases |keys|
  {
    if keys != [] {
      OnlySpaceJumps(keys[0]);
      NoSpaceNoJump(keys[1..]);
    }
  }

  /**
   * As written, the loop reads with `std::cin >> input`, which skips whitespace:
   * the space bound to jump never reaches the switch, whatever is typed.
   */
  lemma FormattedSessionNeverJumps(input: seq<char>)
    ensures Jump !in SessionCommands(FormattedReads(input))
  {
    NoSpaceNoJump(FormattedReads(input));
  }

  /**
   * Reading every character (std::cin.get, or std::noskipws), a space typed
   * before any exit key makes the player jump.
   */
  lemma {:induction false} RawSessionJumpsOnSpace(input: seq<char>, i: nat)
    requires i < |input| && input[i] == ' '
    requires forall j | 0 <= j < i :: KeyCommand(input[j]) != Some(Exit)
    ensures Jump in SessionCommands(input)
    decreases i
  {
    if i > 0 {
      RawSessionJumpsOnSpace(input[1..], i - 1);
    }
  }

  // ---------------------------------------------------------------------------
  // The game object
  // ---------------------------------------------------------------------------

  /** Simple3DGame: the world array and the player pose, updated in place by its methods. */
  class Simple3DGame {
    var world: array3<BlockType>
    var playerX: real
    var playerY: real
    var playerZ: real
    var playerRotation: real

    /** The fixed world extents, and a heading in [0, 360) as the look methods keep it. */
    ghost predicate Valid()
      reads this
    {
      world.Length0 == WorldSizeX && world.Length1 == WorldSizeY && world.Length2 == WorldSizeZ &&
      InTurnRange(playerRotation)
    }

    function PoseOf(): Pose
      reads this
    {
      Pose(playerX, playerY, playerZ, playerRotation)
    }

    /** The world was filled from the height function, cell by cell as LayerBlock says. */
    ghost predicate GeneratedFrom(height: (int, int) -> int)
      requires Valid()
      reads this, world
    {
      forall x, y, z | 0 <= x < WorldSizeX && 0 <= y < WorldSizeY && 0 <= z < WorldSizeZ ::
        world[x, y, z] == LayerBlock(y, height(x, z))
    }

    /** The constructor: the initial pose, then generateWorld. */
    constructor (height: (int, int) -> int)
      ensures Valid() && fresh(world) && GeneratedFrom(height)
      ensures PoseOf() == Pose(5.0, 10.0, 5.0, 0.0)
    {
      world := new BlockType[WorldSizeX, WorldSizeY, WorldSizeZ];
      playerX, playerY, playerZ := 5.0, 10.0, 5.0;
      playerRotation := 0.0;
      new;
      GenerateWorld(height);
    }

    /** generateWorld: every cell of every column set from the column's height. */
    method GenerateWorld(height: (int, int) -> int)
      requires Valid()
      modifies world
      ensures GeneratedFrom(height)
    {
      var x := 0;
      while x < WorldSizeX
        invariant 0 <= x <= WorldSizeX
        invariant forall i, j, k | 0 <= i < x && 0 <= j < WorldSizeY && 0 <= k < WorldSizeZ ::
          world[i, j, k] == LayerBlock(j, height(i, k))
      {
        var z := 0;
        while z < WorldSizeZ
          invariant 0 <= z <= WorldSizeZ
          invariant forall i, j, k | 0 <= i < x && 0 <= j < WorldSizeY && 0 <= k < WorldSizeZ ::
            world[i, j, k] == LayerBlock(j, height(i, k))
          invariant forall j, k | 0 <= j < WorldSizeY && 0 <= k < z ::
            world[x, j, k] == LayerBlock(j, height(x, k))
        {
          var h := height(x, z);
          var y := 0;
          while y < WorldSizeY
            invariant 0 <= y <= WorldSizeY
            invariant forall i, j, k | 0 <= i < x && 0 <= j < WorldSizeY && 0 <= k < WorldSizeZ ::
              world[i, j, k] == LayerBlock(j, height(i, k))
            invariant forall j, k | 0 <= j < WorldSizeY && 0 <= k < z ::
              world[x, j, k] == LayerBlock(j, height(x, k))
            invariant forall j | 0 <= j < y :: world[x, j, z] == LayerBlock(j, h)
          {
            if y > h {
              world[x, y, z] := Air;
            } else if y == h {
              world[x, y, z] := Grass;
            } else if y > h - DirtDepth {
              world[x, y, z] := Dirt;
            } else {
              world[x, y, z] := Stone;
            }
            y := y + 1;
          }
          z := z + 1;
        }
        x := x + 1;
      }
    }

    /**
     * The scan of render's ground view for column (x, z): counting up from the
     * bottom, the first cell that is not air, or WorldSizeY when the whole
     * column is air. The bound test comes first, so no cell outside is read.
     */
    method ScanColumn(x: int, z: int) returns (y: int)
      requires Valid()
      requires 0 <= x < WorldSizeX && 0 <= z < WorldSizeZ
      ensures 0 <= y <= WorldSizeY
      ensures forall j | 0 <= j < y :: world[x, j, z] == Air
      ensures y < WorldSizeY ==> world[x, y, z] != Air
    {
      y := 0;
      while y < WorldSizeY && world[x, y, z] == Air
        invariant 0 <= y <= WorldSizeY
        invariant forall j | 0 <= j < y :: world[x, j, z] == Air
      {
        y := y + 1;
      }
    }

    /**
     * In a generated world with column (x, z) rising from the bottom, ScanColumn
     * stops at y = 0 (its cell is not air) and shows stone once the surface is at
     * least DirtDepth high, while the grass surface sits at height(x, z) with only
     * air above it, which is where ScanColumnFromTop stops.
     */
    lemma GeneratedColumnScans(height: (int, int) -> int, x: int, z: int)
      requires Valid() && GeneratedFrom(height)
      requires 0 <= x < WorldSizeX && 0 <= z < WorldSizeZ && 0 <= height(x, z) < WorldSizeY
      ensures world[x, 0, z] != Air
      ensures height(x, z) >= DirtDepth ==> world[x, 0, z] == Stone
      ensures world[x, height(x, z), z] == Grass
      ensures forall y | height(x, z) < y < WorldSizeY :: world[x, y, z] == Air
    {
      BottomScanShowsFloorBlock(height(x, z));
      TopScanShowsSurface(height(x, z));
    }

    /**
     * The scan as the ground view evidently means it: counting down from the
     * top, the highest cell that is not air, or -1 when the column is all air.
     */
    method ScanColumnFromTop(x: int, z: int) returns (y: int)
      requires Valid()
      requires 0 <= x < WorldSizeX && 0 <= z < WorldSizeZ
      ensures -1 <= y < WorldSizeY
      ensures forall j | y < j < WorldSizeY :: world[x, j, z] == Air
      ensures y >= 0 ==> world[x, y, z] != Air
    {
      y := WorldSizeY - 1;
      while y >= 0 && world[x, y, z] == Air
        invariant -1 <= y < WorldSizeY
        invariant forall j | y < j < WorldSizeY :: world[x, j, z] == Air
      {
        y := y - 1;
      }
    }

    /** moveForward: half a unit along the heading (sinR, cosR: sin and cos of the heading). */
    method MoveForward(sinR: real, cosR: real)
      modifies this`playerX, this`playerZ
      ensures PoseOf() == Apply(old(PoseOf()), Forward, sinR, cosR)
    {
      playerX := playerX + sinR * MoveStep;
      playerZ := playerZ + cosR * MoveStep;
    }

    /** moveBackward: half a unit against the heading. */
    method MoveBackward(sinR: real, cosR: real)
      modifies this`playerX, this`playerZ
      ensures PoseOf() == Apply(old(PoseOf()), Backward, sinR, cosR)
    {
      playerX := playerX - sinR * MoveStep;
      playerZ := playerZ - cosR * MoveStep;
    }

    /** moveLeft: half a unit square to the heading. */
    method MoveLeft(sinR: real, cosR: real)
      modifies this`playerX, this`playerZ
      ensures PoseOf() == Apply(old(PoseOf()), StrafeLeft, sinR, cosR)
    {
      playerX := playerX + cosR * MoveStep;
      playerZ := playerZ - sinR * MoveStep;
    }

    /** moveRight: half a unit square to the heading, the other way. */
    method MoveRight(sinR: real, cosR: real)
      modifies this`playerX, this`playerZ
      ensures PoseOf() == Apply(old(PoseOf()), StrafeRight, sinR, cosR)
    {
      playerX := playerX - cosR * MoveStep;
      playerZ := playerZ + sinR * MoveStep;
    }

    /** lookLeft: the heading stays in [0, 360). */
    method LookLeft()
      requires Valid()
      modifies this`playerRotation
      ensures Valid()
      ensures playerRotation == TurnedLeft(old(playerRotation))
    {
      TurnsStayInRange(playerRotation);
      playerRotation := playerRotation - TurnStep;
      if playerRotation < 0.0 {
        playerRotation := playerRotation + FullTurn;
      }
    }

    /** lookRight: the heading stays in [0, 360). */
    method LookRight()
      requires Valid()
      modifies this`playerRotation
      ensures Valid()
      ensures playerRotation == TurnedRight(old(playerRotation))
    {
      TurnsStayInRange(playerRotation);
      playerRotation := playerRotation + TurnStep;
      if playerRotation >= FullTurn {
        playerRotation := playerRotation - FullTurn;
      }
    }

    /** jump: one unit up; position in the plane and heading unchanged. */
    method Jump()
      modifies this`playerY
      ensures playerY == Jumped(old(playerY))
    {
      playerY := playerY + 1.0;
    }

    /** crouch: one unit down, not below 1.0. */
    method Crouch()
      modifies this`playerY
      ensures playerY == Crouched(old(playerY))
    {
      playerY := playerY - 1.0;
      if playerY < CrouchFloor {
        playerY := CrouchFloor;
      }
    }

    /**
     * One pass of the input loop's switch for a key that has been read: the
     * command's effect on the pose, and whether it was the exit key.
     */
    method HandleKey(key: char, sinR: real, cosR: real) returns (quit: bool)
      requires Valid()
      modifies this`playerX, this`playerY, this`playerZ, this`playerRotation
      ensures Valid()
      ensures quit <==> KeyCommand(key) == Some(Exit)
      ensures PoseOf() == match KeyCommand(key)
        case None => old(PoseOf())
        case Some(c) => Apply(old(PoseOf()), c, sinR, cosR)
    {
      quit := false;
      match KeyCommand(key) {
        case None =>
        case Some(c) =>
          match c {
            case Forward => MoveForward(sinR, cosR);
            case Backward => MoveBackward(sinR, cosR);
            case StrafeLeft => MoveLeft(sinR, cosR);
            case StrafeRight => MoveRight(sinR, cosR);
            case LookLeft => LookLeft();
            case LookRight => LookRight();
            case Jump => Jump();
            case Crouch => Crouch();
            case Exit => quit := true;
          }
      }
    }
  }
}
