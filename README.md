# Voxel games and keyword agent — a verified model

This project models three small programs from one repository. Each is proved against properties its code promises.

- **testgame.cpp** is a 16×16×16 voxel world under touch control.
  - `generateWorld` fills every column with grass on top, two layers of dirt below it and stone further down. Every cell under y = 5 is then overwritten with water.
  - `handleTouchEvent` is a small state machine. A press on the left half of the screen starts a camera drag. A press on the right half crouches. A move while dragging turns the camera, with tilt clamped to ±90°. A release clears one flag.
  - Each frame of `main` walks the player along the heading while dragging. It then lowers the player by 0.05, or by 0.1 when crouching. Finally it resolves a collision against the cell the player stands in.
- **testgamenomodul.cpp** is a 10×5×10 text-mode variant, the class `Simple3DGame`.
  - It has its own world generation and a ground-view column scan.
  - Its movement by half a unit along the heading is the four cardinal moves.
  - `lookLeft`/`lookRight` turn by 10° and keep the heading in [0, 360).
  - `jump` raises the player by one; `crouch` lowers by one with a floor at 1.
  - `main` maps keys to commands through a switch.
- **tast.py** is a keyword dialogue agent written in Bengali.
  - `Agent` remembers what it perceives.
  - `think` labels the latest observation by a fixed priority of substring tests on its lower-cased text.
  - `act` answers through a table of handlers.
  - `Environment` registers agents by name and routes input to them.

Modules:

- `Voxel` (Voxel.dfy) models testgame.cpp.
  - The pure rules are functions: the block of a generated cell, truncation toward zero, the collision step and the touch transition `Touch`.
  - The class `VoxelGame` holds the world as an `array3` and the player and touch globals as fields. Its methods are proved against those functions.
- `TextVoxel` (TextVoxel.dfy) models testgamenomodul.cpp in the same way, with the class `Simple3DGame`.
- `KeywordAgent` (KeywordAgent.dfy) models tast.py.
  - `Agent` and `Environment` are classes.
  - `Classify` is the decision of `think`.
  - Dictionaries that Python iterates in insertion order are lists of pairs.
- `Text` (Text.dfy) holds the string operations the agent uses, `str.lower` and `p in s`. `Wrappers` (Wrappers.dfy) holds `Option`.

How things are modelled:

- Floating point is exact real arithmetic.
- `static_cast<int>` is `Voxel.Trunc`, truncation toward zero. C's integer `/` is written out for `screenWidth / 2`.
- The trigonometric terms are parameters:
  - the height functions `height(x, z)` of the two generators;
  - the per-frame displacement `(dx, dz)`;
  - `sinR`/`cosR` of the heading in the text variant.
- random.choice is a caller-supplied index `choice`, taken modulo the number of candidates.

Two behaviours of the code are kept as written:

- testgame.cpp never wraps the drag yaw (line 253). `Voxel.DragTelescopes` keeps it unbounded.
- The "Ground View" of testgamenomodul.cpp (line 80) scans each column from the bottom (see Findings).

## Model

| member | source | states |
|---|---|---|
| Voxel.GeneratedColumn | testgame.cpp:127-142 | a generated column has 16 cells: water in every cell below y = 5, and from y = 5 up, air exactly above the surface, grass exactly at it, dirt exactly in the two cells below it and stone exactly deeper; gravity over it is Voxel.GravityConverges |
| Voxel.ColumnLayers | testgame.cpp:128-136 | at or above the water level a cell is Layered: air iff above the surface, grass iff at it, dirt iff in the two cells below, stone iff deeper |
| Voxel.WaterBelowLevel | testgame.cpp:139-141 | every cell below y = 5 is water whatever the surface height |
| Voxel.OnlyTerrainKinds | testgame.cpp:121-145 | generation only ever places air, grass, dirt, stone or water (never wood or leaf) |
| Voxel.SurfaceIsTopSolid | testgame.cpp:128-131 | for a surface at or above the water level the surface cell is solid and every cell above it is not |
| Voxel.Trunc | testgame.cpp:433-435 | the index the cast gives is the integer toward zero: t <= r < t+1 for r >= 0 and t-1 < r <= t for r < 0 |
| Voxel.ClampLayer | testgame.cpp:437-438 | the vertical index lies in [0, 16), is unchanged inside, 0 below and 15 above |
| Voxel.ResolveSnapsOnSolid | testgame.cpp:433-443 | the player snaps to one above the clamped cell exactly when that cell is solid; a snapped height lies in [1, 16] |
| Voxel.NoSolidNoCollision | testgame.cpp:440-443 | a column with no solid cell (such as the all-air column used off the grid) never moves the player |
| Voxel.StepFromAbove | testgame.cpp:424-443 | from at or above the resting height, one frame either keeps the lowered height (still above) or rests the player exactly on the surface |
| Voxel.RestingIsStable | testgame.cpp:424-443 | a player resting on the surface of a generated column stays there, crouching or not |
| Voxel.NeverBelowSurface | testgame.cpp:424-443 | a frame never takes a player who starts at or above a generated surface to below it |
| Voxel.GravityConverges | testgame.cpp:428-443 | n idle frames from height y over a generated column give exactly max(y - 0.05n, h + 1) |
| Voxel.HalfWidth | testgame.cpp:228 | C's truncating screenWidth / 2, stated as the bracketing 2·half <= w <= 2·half+1 (and its mirror for negative widths) |
| Voxel.ClampTilt | testgame.cpp:256-258 | tilt is forced into [-90, 90], unchanged inside and pinned to the nearer bound outside |
| Voxel.PressLeftStartsDrag | testgame.cpp:231-244 | a press on the left half starts moving, records start and current point and clears the right-side flag, leaving crouch and the camera alone |
| Voxel.PressRightCrouches | testgame.cpp:231-235 | a press on the right half sets exactly the crouch and right-side flags |
| Voxel.MoveTurnsCamera | testgame.cpp:247-263 | a move while dragging turns yaw by 0.5·Δx and tilt by 0.3·Δy (clamped) and rebases the drag start; otherwise nothing changes |
| Voxel.ReleaseClearsOneFlag | testgame.cpp:265-271 | a release clears crouching after a right-side press and moving otherwise, and nothing else |
| Voxel.TouchKeepsTilt | testgame.cpp:247-263 | any event keeps a tilt within [-90, 90] there |
| Voxel.TouchAllKeepsTilt | testgame.cpp:226-273 | tilt stays within [-90, 90] over any sequence of events |
| Voxel.DragTelescopes | testgame.cpp:247-262 | over a drag of moves the yaw change telescopes to 0.5·(last x - start x), unwrapped |
| Voxel.SourceIndexLeavesGrid | testgame.cpp:433-441 | the indices as written leave the grid: at the z that Voxel.VoxelGame.RunDragFrames reaches from spawn, 8 + 0.1·n, the index is 15 at n = 79 and 16 (off the grid) at n = 80, whatever the height; the cast also maps -1.0 to -1 |
| Voxel.VoxelGame.ColumnAt | testgame.cpp:440-441 | the lookup the collision step reads: the world's cells inside the grid, and off the grid a column with no solid cell; its consequences are Voxel.VoxelGame.OffGridNoCollision and Voxel.VoxelGame.ColumnIsGenerated |
| Voxel.VoxelGame.OffGridNoCollision | testgame.cpp:440-443 | at a position off the grid the collision step never moves the player: the bounds check the source lacks |
| Voxel.VoxelGame.constructor | testgame.cpp:36-50 | spawn pose (8, 20, 8), zero yaw, tilt and touch state, an all-air world |
| Voxel.VoxelGame.GenerateWorld | testgame.cpp:121-145 | afterwards every cell of the world is the generated block for its column's height |
| Voxel.VoxelGame.ColumnIsGenerated | testgame.cpp:121-145 | after generation, the column at a grid position is exactly GeneratedColumn of its height |
| Voxel.VoxelGame.HandleTouchEvent | testgame.cpp:226-273 | the new touch and camera state is Touch of the old one and the event; position and world are untouched |
| Voxel.VoxelGame.Tick | testgame.cpp:415-443 | x/z advance by the displacement only while dragging on the left, and y is the fall-and-collide step over the column under the new position |
| Voxel.VoxelGame.RunDragFrames | testgame.cpp:415-443 | n frames while a drag is in progress move x and z by exactly n times the per-frame displacement, and leave y at Voxel.VoxelGame.DraggedHeight: one lower-and-snap per frame in the column under each new position |
| Voxel.VoxelGame.DragInPlaceFalls | testgame.cpp:415-443 | a drag with zero displacement and no crouch gives the same height as n idle frames (Voxel.Falls) in the starting column |
| Voxel.VoxelGame.DragOffGridSinks | testgame.cpp:424-443 | while every position a drag passes is off the grid, the player sinks by the fall rate (0.05, or 0.1 crouching) every frame and is never snapped |
| Voxel.DragPosClosed | testgame.cpp:416-422 | i frames of walking d per frame from c0 reach c0 + i·d |
| Voxel.VoxelGame.RunFallFrames | testgame.cpp:415-443 | n frames with no drag in progress and no crouch leave x/z alone and are n gravity steps (Voxel.Falls) in the column under the player |
| Voxel.VoxelGame.RunIdleFrames | testgame.cpp:415-443 | n frames with no drag in progress and no crouch, over a generated column, leave x/z alone whatever the heading and bring y to max(y - 0.05n, h + 1) |
| TextVoxel.ColumnLayers | testgamenomodul.cpp:52-61 | a cell is air iff above the surface, grass iff at it, dirt iff in the cell below, stone iff deeper |
| TextVoxel.BottomScanShowsFloorBlock | testgamenomodul.cpp:83-90 | the bottom cell of a generated column is never air, and is stone (not the grass surface) once the surface is at height 2 or more |
| TextVoxel.TopScanShowsSurface | testgamenomodul.cpp:53-56 | in a column whose surface lies in the world, the surface is grass and everything above it air |
| TextVoxel.TurnsStayInRange | testgamenomodul.cpp:119-127 | turning left or right keeps a heading in [0, 360) |
| TextVoxel.TurnsUndoEachOther | testgamenomodul.cpp:119-127 | a left turn and a right turn cancel, in either order |
| TextVoxel.TurnStepsHeading | testgamenomodul.cpp:119-127 | on the 10° grid, a right turn goes from heading k to k+1 and a left turn to k-1, modulo 36 |
| TextVoxel.TurnsFromZero | testgamenomodul.cpp:119-127 | any sequence of turns from 0 ends at 10·(net right turns mod 36) degrees, within [0, 360) |
| TextVoxel.CrouchKeepsFloor | testgamenomodul.cpp:133-136 | crouching lowers by one but never below 1 |
| TextVoxel.CrouchUndoesJump | testgamenomodul.cpp:129-136 | crouching after a jump restores any height at or above the floor |
| TextVoxel.RepeatedCrouch | testgamenomodul.cpp:133-136 | n crouches give exactly max(y - n, 1) |
| TextVoxel.MovesAreOpposedAndSquare | testgamenomodul.cpp:99-117 | backward is the negation of forward, right the negation of left, and left is forward turned a quarter clockwise, (f.z, −f.x): square to it and of the same length |
| TextVoxel.MoveLength | testgamenomodul.cpp:99-117 | with a unit heading vector each of the four moves covers exactly half a unit |
| TextVoxel.KeyCaseInsensitive | testgamenomodul.cpp:153-178 | a lower-case key and its upper-case form select the same command |
| TextVoxel.OnlySpaceJumps | testgamenomodul.cpp:172-174 | the jump command is selected by the space key and no other |
| TextVoxel.FormattedReads | testgamenomodul.cpp:149-151 | the characters formatted reads deliver are never whitespace, and every other character is delivered as many times as it was typed |
| TextVoxel.FormattedReadsAppend | testgamenomodul.cpp:149-151 | the reads of a stream are the reads of its parts, in order |
| TextVoxel.FormattedReadsOne | testgamenomodul.cpp:151 | one whitespace character delivers nothing, any other character delivers itself |
| TextVoxel.NoSpaceNoJump | testgamenomodul.cpp:153-178 | a key stream without whitespace never issues a jump |
| TextVoxel.FormattedSessionNeverJumps | testgamenomodul.cpp:149-174 | the input loop as written never jumps, whatever is typed |
| TextVoxel.RawSessionJumpsOnSpace | testgamenomodul.cpp:153-174 | reading raw characters, a space typed before any exit key does jump |
| TextVoxel.Simple3DGame.constructor | testgamenomodul.cpp:33-44 | pose (5, 10, 5, 0) and a world generated from the height function |
| TextVoxel.Simple3DGame.GenerateWorld | testgamenomodul.cpp:47-65 | afterwards every cell is LayerBlock of its height and column surface |
| TextVoxel.Simple3DGame.ScanColumn | testgamenomodul.cpp:83-86 | the scan returns the first non-air cell from the bottom, or the column height when all is air |
| TextVoxel.Simple3DGame.GeneratedColumnScans | testgamenomodul.cpp:83-90 | in a generated world the bottom scan stops at y = 0 on stone (surface at 2 or more), while the grass surface with air above sits at the height |
| TextVoxel.Simple3DGame.ScanColumnFromTop | testgamenomodul.cpp:81-95 | the top-down scan returns the highest non-air cell, or -1 when all is air |
| TextVoxel.Simple3DGame.MoveForward | testgamenomodul.cpp:99-102 | the pose becomes the forward move of the old pose |
| TextVoxel.Simple3DGame.MoveBackward | testgamenomodul.cpp:104-107 | the pose becomes the backward move of the old pose |
| TextVoxel.Simple3DGame.MoveLeft | testgamenomodul.cpp:109-112 | the pose becomes the left strafe of the old pose |
| TextVoxel.Simple3DGame.MoveRight | testgamenomodul.cpp:114-117 | the pose becomes the right strafe of the old pose |
| TextVoxel.Simple3DGame.LookLeft | testgamenomodul.cpp:119-122 | heading becomes the left turn of the old one and stays in [0, 360) |
| TextVoxel.Simple3DGame.LookRight | testgamenomodul.cpp:124-127 | heading becomes the right turn of the old one and stays in [0, 360) |
| TextVoxel.Simple3DGame.Jump | testgamenomodul.cpp:129-131 | height rises by one |
| TextVoxel.Simple3DGame.Crouch | testgamenomodul.cpp:133-136 | height falls by one, floored at 1 |
| TextVoxel.Simple3DGame.HandleKey | testgamenomodul.cpp:153-178 | a key applies exactly its command's pose change, and quits iff it is x or X |
| Text.Lower | tast.py:36 | definition of `str.lower` character by character (its contract is the length and per-character form); its properties are in Text.LowerIdempotent, Text.LowerTail and Text.CaselessMatchIgnoresLower |
| Text.LowerIdempotent | tast.py:86-89 | lowering an already lowered string changes nothing; used by KeywordAgent.FirstMatchLoweredQuestion |
| Text.LowerTail | tast.py:36 | lowering commutes with dropping the first character |
| Text.ContainsAt | tast.py:39-50 | the substring test holds iff the pattern occurs at some position |
| Text.PrefixIgnoresLower | tast.py:36-50 | a pattern without ASCII letters starts the lowered string iff it starts the string |
| Text.CaselessMatchIgnoresLower | tast.py:36-50 | a pattern without ASCII letters occurs in the lowered string iff it occurs in the string |
| Text.CaselessIsLower | tast.py:80 | lowering a string without ASCII letters gives it back; used by KeywordAgent.Agent.DefaultCapitalAnswer |
| KeywordAgent.Classify | tast.py:32-53 | think's decision is always one of the six labels |
| KeywordAgent.ClassifyPriority | tast.py:39-53 | each label is chosen exactly when its test holds and every earlier one fails |
| KeywordAgent.KeywordsAreCaseless | tast.py:39-50 | none of think's keywords contains an ASCII letter |
| KeywordAgent.MentionsIgnoreLower | tast.py:36-48 | for caseless keywords, any-keyword tests agree on a string and its lowered form |
| KeywordAgent.LoweringIsImmaterial | tast.py:36-53 | think gives the same label on the raw text as on its lowered form |
| KeywordAgent.FirstMatchLoweredQuestion | tast.py:79-90 | matching against the already lowered question (the math handler, line 86) gives the same entry as lowering it in the test (the fact handler, line 80) |
| KeywordAgent.FirstMatch | tast.py:79-90 | the first table entry whose lowered key occurs in the lowered question, with no earlier entry matching; none iff no entry matches |
| KeywordAgent.HandlersCoverLabels | tast.py:56-65 | the handler table has exactly the six labels as keys, so no decision of think reaches the unknown handler |
| KeywordAgent.Agent.constructor | tast.py:5-26 | name as given, the given knowledge or the default one, and a memory holding only the seed entry |
| KeywordAgent.Agent.Perceive | tast.py:28-29 | the observation is appended to memory, so it is the latest entry that think reads, and the seed entry stays first |
| KeywordAgent.Agent.Think | tast.py:32-53 | none iff memory is empty, otherwise one of the six labels, the classification of the latest observation |
| KeywordAgent.Agent.ThinkAlwaysDecides | tast.py:26-34 | an agent's memory is never empty, so once something was perceived think returns the classification of it |
| KeywordAgent.Agent.DefaultCapitalAnswer | tast.py:14-81 | with the default knowledge, a question naming "বাংলাদেশের রাজধানী" verbatim is answered "বাংলাদেশের রাজধানী হল ঢাকা" |
| KeywordAgent.Agent.FactReply | tast.py:76-83 | the first fact named in the question with its value, or the don't-know reply |
| KeywordAgent.Agent.MathReply | tast.py:85-92 | the first problem named in the question with its answer, or the don't-know reply |
| KeywordAgent.Agent.Act | tast.py:55-109 | each label gets its handler's reply (a greeting or prompt from the three candidates, the name, thanks, the fact or math answer) and any other action the unknown reply |
| KeywordAgent.Environment.constructor | tast.py:112-113 | no agents registered |
| KeywordAgent.Environment.AddAgent | tast.py:115-116 | the agent is registered under its own name, replacing any previous one of that name |
| KeywordAgent.Environment.Interact | tast.py:118-126 | an unknown name gets the not-found reply; otherwise the agent's memory grows by the input alone, the reply is act on think's label for it, and no other agent changes |
| Voxel.IsSolid | testgame.cpp:440-441 | definition: neither air nor water; used by Resolve, properties in Voxel.SurfaceIsTopSolid |
| Voxel.TerrainBlock | testgame.cpp:128-136 | definition, no contract: the air/grass/dirt/stone chain; its properties are in Voxel.ColumnLayers |
| Voxel.Layered | testgame.cpp:128-136 | definition, no contract: the layering over one cell, stated once and used by Voxel.ColumnLayers and Voxel.GeneratedColumn |
| Voxel.GeneratedBlock | testgame.cpp:127-141 | definition, no contract: TerrainBlock with the water overwrite below y = 5; properties in Voxel.ColumnLayers, Voxel.WaterBelowLevel and Voxel.OnlyTerrainKinds |
| Voxel.InGrid | testgame.cpp:433-441 | definition, no contract: the bounds test the source lacks; used by Voxel.VoxelGame.ColumnAt |
| Voxel.Lowered | testgame.cpp:424-430 | definition, no contract: y minus 0.1 when crouching and 0.05 otherwise; properties in Voxel.StepFromAbove |
| Voxel.Resolve | testgame.cpp:433-443 | definition, no contract: the collision snap; its properties are in Voxel.ResolveSnapsOnSolid and Voxel.NoSolidNoCollision |
| Voxel.FallStep | testgame.cpp:424-443 | definition, no contract: Lowered then Resolve; its properties are in Voxel.StepFromAbove, Voxel.RestingIsStable and Voxel.NeverBelowSurface |
| Voxel.Falls | testgame.cpp:415-443 | definition, no contract: n frames of FallStep without crouching; its closed form is Voxel.GravityConverges |
| Voxel.VoxelGame.DraggedHeight | testgame.cpp:415-443 | definition, no contract: the height after n drag frames, one FallStep per frame in the column under each new position; related to Voxel.Falls by Voxel.VoxelGame.DragInPlaceFalls and solved off the grid by Voxel.VoxelGame.DragOffGridSinks |
| Voxel.DragPos | testgame.cpp:416-422 | definition, no contract: a coordinate after i walking frames; its closed form is Voxel.DragPosClosed |
| Voxel.OnRightHalf | testgame.cpp:228 | definition, no contract: x beyond HalfWidth; properties of HalfWidth in its own contract |
| Voxel.Dragging | testgame.cpp:248 | definition, no contract: moving and not a right-side touch |
| Voxel.Touch | testgame.cpp:226-273 | definition, no contract: one handleTouchEvent call; its properties are in Voxel.PressLeftStartsDrag, Voxel.PressRightCrouches, Voxel.MoveTurnsCamera, Voxel.ReleaseClearsOneFlag and Voxel.TouchKeepsTilt |
| Voxel.TouchAll | testgame.cpp:226-273 | definition, no contract: events handled in order; properties in Voxel.TouchAllKeepsTilt and Voxel.DragTelescopes |
| Voxel.SourceCellIndex | testgame.cpp:433-438 | definition, no contract: the three indices as the source computes them; property in Voxel.SourceIndexLeavesGrid |
| TextVoxel.LayerBlock | testgamenomodul.cpp:52-61 | definition, no contract; its properties are in TextVoxel.ColumnLayers, TextVoxel.BottomScanShowsFloorBlock and TextVoxel.TopScanShowsSurface |
| TextVoxel.TurnedLeft | testgamenomodul.cpp:119-122 | definition, no contract; its properties are in TextVoxel.TurnsStayInRange, TextVoxel.TurnsUndoEachOther and TextVoxel.TurnStepsHeading |
| TextVoxel.TurnedRight | testgamenomodul.cpp:124-127 | definition, no contract; its properties are in TextVoxel.TurnsStayInRange, TextVoxel.TurnsUndoEachOther and TextVoxel.TurnStepsHeading |
| TextVoxel.Turned | testgamenomodul.cpp:119-127 | definition, no contract: a run of turns; its closed form is TextVoxel.TurnsFromZero |
| TextVoxel.Jumped | testgamenomodul.cpp:129-131 | definition, no contract; its properties are in TextVoxel.CrouchUndoesJump |
| TextVoxel.Crouched | testgamenomodul.cpp:133-136 | definition, no contract; its properties are in TextVoxel.CrouchKeepsFloor and TextVoxel.CrouchUndoesJump |
| TextVoxel.CrouchedTimes | testgamenomodul.cpp:133-136 | definition, no contract: n crouches; its closed form is TextVoxel.RepeatedCrouch |
| TextVoxel.Offset | testgamenomodul.cpp:99-117 | definition, no contract: the (x, z) displacement of each move; its properties are in TextVoxel.MovesAreOpposedAndSquare and TextVoxel.MoveLength |
| TextVoxel.Apply | testgamenomodul.cpp:99-136 | definition, no contract: a command's effect on the pose; the Simple3DGame methods are proved against it |
| TextVoxel.KeyCommand | testgamenomodul.cpp:153-178 | definition, no contract: the key switch; its properties are in TextVoxel.KeyCaseInsensitive and TextVoxel.OnlySpaceJumps |
| TextVoxel.IsSpace | testgamenomodul.cpp:151 | definition, no contract: the characters a formatted read skips; used by TextVoxel.FormattedReads |
| TextVoxel.SessionCommands | testgamenomodul.cpp:150-178 | definition, no contract: the commands a key stream issues until exit; its properties are in TextVoxel.NoSpaceNoJump, TextVoxel.FormattedSessionNeverJumps and TextVoxel.RawSessionJumpsOnSpace |
| Text.LowerChar | tast.py:36 | definition, no contract: ASCII lowering of one character; Text.Lower states its use |
| Text.Contains | tast.py:39-50 | definition, no contract: Python's `p in s`; Text.ContainsAt characterises it |
| KeywordAgent.MentionsAny | tast.py:39-48 | definition, no contract: `any(k in s for k in keys)`; its properties are in KeywordAgent.ClassifyPriority and KeywordAgent.MentionsIgnoreLower |
| KeywordAgent.GreetReplies | tast.py:68-74 | definition, no contract: the three greetings; KeywordAgent.Agent.Act states that a greeting is one of them |
| KeywordAgent.HandlerFor | tast.py:65 | definition, no contract: the table lookup with the unknown fallback; KeywordAgent.HandlersCoverLabels states its coverage |
| KeywordAgent.Agent.Latest | tast.py:36 | definition, no contract: the latest memory entry, which think and the handlers read |
| KeywordAgent.Agent.Run | tast.py:66-109 | definition, no contract: one handler's reply; KeywordAgent.Agent.Act states each case |

## Left out

- OpenGL setup, shaders, `renderBlock`, the world draw loop, the virtual joystick and the GLFW window and event polling of testgame.cpp are rendering or I/O.
- `main`'s dispatch in testgame.cpp (lines 399-413) is left out. It decides which touch event to send from the mouse button. It never sends a move, because the button is always either pressed or released. `GLFW_MOVE` is not a GLFW constant. The model's `HandleTouchEvent` takes any event.
- The sine and cosine terms are parameters. This covers the two height formulas, the per-frame displacement and the heading vector of the text moves. The model states nothing about their values beyond what each lemma requires.
- Voxel.Trunc, Voxel.GravityConverges: floating point is exact real arithmetic. Rounding of the 0.05 and 0.1 steps and of the float-to-int cast are not modelled.
- The ANSI screen clearing, the printing of the pose, and the glyph table of `render` in testgamenomodul.cpp are output. The scan that decides each glyph is modelled.
- After the exit case, the end of the input loop in testgamenomodul.cpp is not part of the file (it ends at line 178). So is the behaviour at end of input. `HandleKey` reports `quit` for x/X.
- Python's `print` in `perceive` and in the `__main__` demo (tast.py lines 128-141) is output or a script.
- random.choice is an index `choice` supplied by the caller.
- Text.Lower, Text.LowerChar: `str.lower` is modelled on ASCII letters only. Every keyword think tests is free of ASCII letters (`KeywordAgent.KeywordsAreCaseless`), so only the fact and math keys are affected. Those keys are Bengali in the default knowledge.
- KeywordAgent.Agent.Think: Python raises when `think` runs while the latest memory entry is the `knowledge_base` argument (None or a dict). This happens only before anything was perceived. The requires keeps that case out.
- KeywordAgent.Agent.FactReply, KeywordAgent.Agent.MathReply, KeywordAgent.Agent.Run, KeywordAgent.Agent.Act: the fact and math handlers require that something was perceived. Before any perceive, Python's math handler raises at `self.memory[-1].lower()` (tast.py:86). The fact handler raises at line 80 when the facts table is non-empty, and returns the don't-know reply (line 83) when it is empty. The model does not cover either behaviour.
- KeywordAgent.Agent.constructor: a missing or empty `knowledge_base` (`knowledge_base or {...}`) is modelled as `None`. A given knowledge base is assumed to have the general, facts and math parts the handlers read. A missing key would raise in Python.
- AIR.py, ai1.py, g.py and bakary/Main.js are not part of this model.

## Findings

| source | as written | input that shows it | evidently intended | confidence | as-written member | corrected member |
|---|---|---|---|---|---|---|
| testgame.cpp:433-441 | the x and z indices from `static_cast<int>` are never bounds-checked before `world[blockX][blockY][blockZ]` | holding the left half of the screen from spawn: the heading stays 0, playerZ grows by 0.1 per frame from 8, and after about 80 frames blockZ = 16, an out-of-bounds read | a position off the grid finds no solid block | not executed | Voxel.SourceIndexLeavesGrid | Voxel.VoxelGame.OffGridNoCollision |
| testgamenomodul.cpp:149-174 | `std::cin >> input` skips whitespace, so the `' '` case can never be reached | typing a space and then x: the space is skipped and the player never jumps | the space key jumps, as the on-screen help says (line 143) | not executed | TextVoxel.FormattedSessionNeverJumps | TextVoxel.RawSessionJumpsOnSpace |
| testgamenomodul.cpp:83-92 | the ground-view scan counts up from y = 0, so it stops at the bottom block | any generated column with surface height 2 or more: the scan stops at y = 0 and shows stone, not the grass surface | the view shows the topmost non-air block of each column | not executed (medium: intent inferred) | TextVoxel.Simple3DGame.ScanColumn | TextVoxel.Simple3DGame.ScanColumnFromTop |
