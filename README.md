# WebGL coursework, modelled in Dafny

This project models the stateful and arithmetic core of a set of WebGL
exercises. Everything is over exact reals. The pieces are:

- **Matrix4.** A column-major 4x4 transform class over a 16-element array, mutated in place.
- **Two first-person cameras.**
  - The asgn4 camera steps along the line of sight and pans.
  - The asgn3 camera is the maze version, which has bugs.
- **The Pac-Man maze world** (asgn3).
  - Walls and pellets are built from a character grid.
  - Blocks are added and deleted in front of the camera.
  - Pellets are eaten, with a counter.
  - A Pac-Man sprite moves on an integer grid.
- **The block world** (asgn4). It edits a grid of rows and a wall list together.
- **The lit scene** (asgn4).
  - An orbiting camera record driven by keys and mouse drags.
  - Light toggles.
  - A lit cube whose normal matrix is the transposed inverse of its model matrix.
  - A latitude/longitude sphere built into flat vertex, normal and texture-coordinate arrays and read back by index.
  - A cone drawn as side and base triangles.
- **The asgn3 cube.** Its constant vertex tables and its three render paths.
- **The Lion King viewer's orbit controls.** Spherical coordinates steered by mouse, wheel and touch.
- **The click-to-paint program of asgn1.** Shape list, colour and size selection, and the pixel-to-clip-space conversion.

## How the model is built

- **Classes where the source mutates.** Objects whose methods update fields (Matrix4, the cameras, the worlds, the cubes, the controls, the painter) are Dafny classes. Their methods are proved against pure specification functions, for example `Matrix4.Translate` ensures `elements[..] == Translated(old(elements[..]), x, y, z)`. The lemmas then prove what the source promises about those functions: composition, round trips, inverses and invariants.
- **Unknown numerics become parameters.**
  - `Math.sin`, `Math.cos` and the vector length `Math.sqrt(x²+y²+z²)` are passed in as parameters or stored as `const` fields.
  - The vector length is characterised by `Vectors.IsNorm`: non-negative, and its square is the dot product.
  - The rotation `Matrix4.setRotate(...).multiplyVector3` used by the asgn4 pan is a parameter too.
  - `Math.PI` is the decimal `3.141592653589793`.
- **Integer target cells.** Where the source uses `Math.round(Math.hypot(...))` to choose a target cell, the model takes the integer cell `(mapX, mapZ)` as an input.
- **Draw calls are values.** Each render returns what it sends to the GPU, as a datatype value: the uniforms, the vertex data and the vertex count.

## Model

| member | source | states |
|---|---|---|
| MatrixMath.MatMul | asgn4/blockyAnimal/Matrix4.js:103-117 | entry (row, col) of the column-major product is the row-by-column sum |
| MatrixMath.Identity | asgn4/blockyAnimal/Matrix4.js:7-14 | 1 on the diagonal, 0 elsewhere |
| MatrixMath.Translation | asgn4/blockyAnimal/Matrix4.js:58-65 | identity except elements 12, 13, 14 = x, y, z |
| MatrixMath.Translated | asgn4/blockyAnimal/Matrix4.js:67-74 | elements 0..11 unchanged |
| MatrixMath.Scaled | asgn4/blockyAnimal/Matrix4.js:76-83 | elements 12..15 unchanged, columns 0, 1, 2 multiplied by x, y, z |
| MatrixMath.Transposed | asgn4/blockyAnimal/Matrix4.js:159-169 | entry (row, col) of the result is entry (col, row) of the input |
| MatrixMath.ProductIsPreMultiplication | asgn4/blockyAnimal/Matrix4.js:103-117 | the element loop of `multiply` computes other × this in column-major terms |
| MatrixMath.MatMulIdentity | asgn4/blockyAnimal/Matrix4.js:7-14 | the identity is neutral on both sides |
| MatrixMath.TranslationOfIdentity | asgn4/blockyAnimal/Matrix4.js:58-74 | setTranslate equals translate applied to the identity |
| MatrixMath.TranslateZero | asgn4/blockyAnimal/Matrix4.js:67-74 | translate(0,0,0) is a no-op |
| MatrixMath.TranslateTwice | asgn4/blockyAnimal/Matrix4.js:67-74 | translate(a) then translate(b) equals translate(a+b) |
| MatrixMath.TranslatedIsPostMultiplication | asgn4/blockyAnimal/Matrix4.js:67-74 | translate post-multiplies by the translation matrix |
| MatrixMath.ScaleOne | asgn4/blockyAnimal/Matrix4.js:76-83 | scale(1,1,1) is a no-op |
| MatrixMath.ScaledIsPostMultiplication | asgn4/blockyAnimal/Matrix4.js:76-83 | scale post-multiplies by the scaling matrix |
| MatrixMath.TransposeTwice | asgn4/blockyAnimal/Matrix4.js:159-169 | transposing twice restores the matrix |
| MatrixInverse.InverseRight | asgn4/blockyAnimal/Matrix4.js:126-157 | for a non-zero cofactor determinant, m × inverse(m) = identity |
| MatrixInverse.InverseLeft | asgn4/blockyAnimal/Matrix4.js:126-157 | for a non-zero cofactor determinant, inverse(m) × m = identity |
| MatrixInverse.InverseIsTwoSided | asgn4/blockyAnimal/Matrix4.js:126-157 | the cofactor inverse is a two-sided inverse |
| Matrices.Matrix4.constructor | asgn4/blockyAnimal/Matrix4.js:2-14 | a new matrix is the identity in a fresh 16-element array |
| Matrices.Matrix4.SetIdentity | asgn4/blockyAnimal/Matrix4.js:7-14 | the elements become the identity |
| Matrices.Matrix4.SetTranslate | asgn4/blockyAnimal/Matrix4.js:58-65 | the elements become the translation matrix |
| Matrices.Matrix4.Translate | asgn4/blockyAnimal/Matrix4.js:67-74 | the elements become `Translated` of the old ones |
| Matrices.Matrix4.Scale | asgn4/blockyAnimal/Matrix4.js:76-83 | the elements become `Scaled` of the old ones |
| Matrices.Matrix4.Multiply | asgn4/blockyAnimal/Matrix4.js:103-117 | this receives a fresh array holding other × old this; the argument's array is left unchanged |
| Matrices.Matrix4.Set | asgn4/blockyAnimal/Matrix4.js:119-124 | the first 16 entries of the source array are copied |
| Matrices.Matrix4.SetInverseOf | asgn4/blockyAnimal/Matrix4.js:126-157 | determinant 0 leaves this unchanged; otherwise this becomes the inverse of the old source, correct even when source is this |
| Matrices.Matrix4.Transpose | asgn4/blockyAnimal/Matrix4.js:159-169 | the elements become the transpose of the old ones |
| Shading.NextNormal | asgn4/blockyAnimal/Cube.js:17-20 | invertible model: the transposed result is a two-sided inverse of the model; singular model: the result is the transpose of the previous normal matrix |
| Shading.SingularTwiceRestores | asgn4/blockyAnimal/Cube.js:18-19 | with a singular model matrix two renders leave the normal matrix as it was |
| Shading.InvertibleForgetsPrevious | asgn4/blockyAnimal/Cube.js:18-19 | with an invertible model matrix the new normal matrix does not depend on the old one |
| Shading.UpdateNormalMatrix | asgn4/blockyAnimal/Cube.js:18-19 | setInverseOf then transpose yields `NextNormal`; the model matrix is unchanged |
| Poses.Shift | asgn4/blockyAnimal/Camera.js:9-53 | moving eye and at by the same vector keeps at − eye and up |
| Poses.ShiftBack | asgn4/blockyAnimal/Camera.js:9-53 | shifting by v and then by −v restores the pose |
| FlyCamera.ForwardPose | asgn4/blockyAnimal/Camera.js:9-17 | eye and at move by 0.2·normalize(at − eye); at − eye and up unchanged |
| FlyCamera.BackPose | asgn4/blockyAnimal/Camera.js:19-27 | eye and at move by −0.2·normalize(at − eye) |
| FlyCamera.LeftPose | asgn4/blockyAnimal/Camera.js:29-40 | eye and at move by 0.2·normalize(up × f) |
| FlyCamera.RightPose | asgn4/blockyAnimal/Camera.js:42-53 | eye and at move by −0.2·normalize(up × f) |
| FlyCamera.PanPose | asgn4/blockyAnimal/Camera.js:55-79 | eye and up unchanged; at − eye becomes the rotation of the old at − eye about up |
| FlyCamera.Camera.constructor | asgn4/blockyAnimal/Camera.js:3-7 | eye (0,0,3), at (0,0,−100), up (0,1,0) |
| FlyCamera.Camera.Forward | asgn4/blockyAnimal/Camera.js:9-17 | the pose becomes `ForwardPose` of the old one |
| FlyCamera.Camera.Back | asgn4/blockyAnimal/Camera.js:19-27 | the pose becomes `BackPose` of the old one |
| FlyCamera.Camera.Left | asgn4/blockyAnimal/Camera.js:29-40 | the pose becomes `LeftPose` of the old one |
| FlyCamera.Camera.Right | asgn4/blockyAnimal/Camera.js:42-53 | the pose becomes `RightPose` of the old one |
| FlyCamera.Camera.PanLeft | asgn4/blockyAnimal/Camera.js:55-66 | at is rotated by +5 degrees about up around eye |
| FlyCamera.Camera.PanRight | asgn4/blockyAnimal/Camera.js:68-79 | at is rotated by −5 degrees about up around eye |
| FlyCamera.ForwardBackRoundTrip | asgn4/blockyAnimal/Camera.js:9-27 | forward then back, and back then forward, restore the pose exactly |
| FlyCamera.LeftRightRoundTrip | asgn4/blockyAnimal/Camera.js:29-53 | left then right, and right then left, restore the pose exactly |
| FlyCamera.StepIsTwoTenths | asgn4/blockyAnimal/Camera.js:10-14 | when at ≠ eye, the forward and back steps have length 0.2 |
| FlyCamera.ForwardTwiceFromInitial | asgn4/blockyAnimal/Camera.js:10-14 | one forward step from the initial pose leaves the eye at (0,0,2.8), two leave it at (0,0,2.6) |
| FlyCamera.SideStepIsTwoTenths | asgn4/blockyAnimal/Camera.js:30-51 | when up × f ≠ 0, the left and right steps have length 0.2 |
| FlyCamera.PanRoundTrip | asgn4/blockyAnimal/Camera.js:55-79 | panLeft then panRight restores the pose when a −5 degree rotation undoes a +5 degree one |
| MazeCamera.ForwardPose | asgn3/blockyAnimal/Camera.js:8-15 | as written: eye and at move by normalize(at), not normalize(at − eye) |
| MazeCamera.BackPose | asgn3/blockyAnimal/Camera.js:17-31 | as written: eye and at move by +normalize(eye) |
| MazeCamera.LeftPose | asgn3/blockyAnimal/Camera.js:33-43 | eye and at move by normalize(up × f), f = normalize(at − eye) |
| MazeCamera.RightPose | asgn3/blockyAnimal/Camera.js:45-58 | eye and at move by normalize(f × up) |
| MazeCamera.Camera.constructor | asgn3/blockyAnimal/Camera.js:2-6 | eye (0,0,3), at (0,0,−100), up (0,1,0) |
| MazeCamera.Camera.Forward | asgn3/blockyAnimal/Camera.js:8-15 | the pose becomes `ForwardPose` of the old one |
| MazeCamera.Camera.Back | asgn3/blockyAnimal/Camera.js:17-31 | the pose becomes `BackPose` of the old one |
| MazeCamera.Camera.Left | asgn3/blockyAnimal/Camera.js:33-43 | the pose becomes `LeftPose` of the old one |
| MazeCamera.Camera.Right | asgn3/blockyAnimal/Camera.js:45-58 | the pose becomes `RightPose` of the old one |
| MazeCamera.CrossSwap | asgn3/blockyAnimal/Camera.js:36-51 | f × up is the negation of up × f |
| MazeCamera.LeftRightRoundTrip | asgn3/blockyAnimal/Camera.js:33-58 | right's step is the negation of left's, so left then right (and right then left) restore the pose |
| MazeCamera.LeftOfInitial | asgn3/blockyAnimal/Camera.js:33-43 | from the initial pose, left moves eye to (−1,0,3) and at to (−1,0,−100) |
| MazeCamera.LeftTwiceFromInitial | asgn3/blockyAnimal/Camera.js:33-43 | two left steps from the initial pose leave the eye at (−2,0,3) |
| MazeCamera.ForwardLeavesLineOfSight | asgn3/blockyAnimal/Camera.js:8-15 | after one left step from the start the line of sight has x = 0, yet forward changes eye.x |
| MazeCamera.BackDoesNotUndoForward | asgn3/blockyAnimal/Camera.js:8-31 | from eye (0,0,−3), at (0,0,−100), forward then back puts eye at (0,0,−5) |
| MazeCamera.CorrectedForwardPose | asgn3/blockyAnimal/Camera.js:8-15 | corrected: eye and at move by normalize(at − eye) |
| MazeCamera.CorrectedBackPose | asgn3/blockyAnimal/Camera.js:17-31 | corrected: eye and at move by −normalize(at − eye) |
| MazeCamera.CorrectedRoundTrip | asgn3/blockyAnimal/Camera.js:8-31 | corrected forward and back undo each other |
| MazeCamera.CorrectedForwardAlongSight | asgn3/blockyAnimal/Camera.js:8-15 | the corrected forward step is a positive multiple of at − eye |
| Keys.Lower | asgn4/blockyAnimal/blockyAnimal.js:330 | `toLowerCase`: length kept; each character is its lower-case form (A–Z moved up by 32 to a–z, every other character kept); no upper-case letter left; letters stay letters |
| Keys.LowerIdempotent | asgn4/blockyAnimal/blockyAnimal.js:330 | lower-casing twice equals lower-casing once |
| Canvas.ToClip | asgn1/asign1/ColoredPoints.js:142-151 | x·(w/2) = (clientX − left) − w/2 and y·(h/2) = h/2 − (clientY − top) |
| Canvas.CentreIsOrigin | asgn1/asign1/ColoredPoints.js:142-151 | the canvas centre maps to (0,0) |
| Canvas.EdgesAreUnit | asgn1/asign1/ColoredPoints.js:142-151 | left/right edges map to x = −1/+1, top/bottom to y = +1/−1 |
| Canvas.InsideLandsInUnitSquare | asgn3/blockyAnimal/World.js:516-525 | a point on the canvas maps into [−1,1]² |
| Canvas.RoundTrip | asgn4/blockyAnimal/blockyAnimal.js:384 | the conversion is a bijection, undone by `FromClip` both ways |
| ColoredPoints.KindOf | asgn1/asign1/ColoredPoints.js:125-132 | Point exactly for POINT, Triangle exactly for TRIANGLE, Circle otherwise |
| ColoredPoints.NewShape | asgn1/asign1/ColoredPoints.js:122-140 | the new shape has the selected kind, colour and size at the clip position of the click |
| ColoredPoints.Redraw | asgn1/asign1/ColoredPoints.js:153-170 | the house first, then every shape in insertion order |
| ColoredPoints.RedrawAppend | asgn1/asign1/ColoredPoints.js:153-170 | appending a shape appends exactly its draw |
| ColoredPoints.Painter.constructor | asgn1/asign1/ColoredPoints.js:60-66 | white, size 5, POINT, empty list |
| ColoredPoints.Painter.RenderAllShapes | asgn1/asign1/ColoredPoints.js:153-170 | the draws are `Redraw` of the list |
| ColoredPoints.Painter.Click | asgn1/asign1/ColoredPoints.js:122-140 | exactly one shape appended, carrying a copy of the selected colour; nothing else changes |
| ColoredPoints.Painter.MouseMove | asgn1/asign1/ColoredPoints.js:111-113 | with button 1 held it acts as a click, otherwise nothing changes |
| ColoredPoints.Painter.ClearButton | asgn1/asign1/ColoredPoints.js:75-78 | the list is emptied and only the house is drawn |
| ColoredPoints.Painter.PointButton | asgn1/asign1/ColoredPoints.js:80-82 | only the selected type changes, to POINT |
| ColoredPoints.Painter.TriangleButton | asgn1/asign1/ColoredPoints.js:83-85 | only the selected type changes, to TRIANGLE |
| ColoredPoints.Painter.CircleButton | asgn1/asign1/ColoredPoints.js:86-88 | only the selected type changes, to CIRCLE |
| ColoredPoints.Painter.GreenButton | asgn1/asign1/ColoredPoints.js:69-71 | a fresh colour array (0,1,0,1); shapes already stored keep their colours |
| ColoredPoints.Painter.RedButton | asgn1/asign1/ColoredPoints.js:72-74 | a fresh colour array (1,0,0,1) |
| ColoredPoints.Painter.ColorSlide | asgn1/asign1/ColoredPoints.js:90-98 | one colour component becomes value/100, the others and the shapes are unchanged |
| ColoredPoints.Painter.SizeSlide | asgn1/asign1/ColoredPoints.js:100-102 | only the selected size changes |
| Scenery.WallCube | asgn3/blockyAnimal/World.js:327-336 | a wall cube placed at (x, −0.65, z) |
| Scenery.PelletCube | asgn3/blockyAnimal/World.js:260-271 | a yellow pellet, texture −2, placed at (x, −0.55, z) |
| Scenery.RowCellsExact | asgn3/blockyAnimal/World.js:324-338 | the cells collected from a row are exactly those holding the character, in column order |
| Scenery.GridCellsExact | asgn3/blockyAnimal/World.js:324-338 | the cells collected from the grid are exactly those holding the character, in row-major order |
| Scenery.WallsAt | asgn3/blockyAnimal/World.js:324-338 | one wall per cell, at (x − cols/2, z − rows/2) |
| Scenery.PelletsAt | asgn3/blockyAnimal/World.js:257-273 | one pellet per cell, at (x − cols/2 + 0.5, z − rows/2 + 0.5) |
| Scenery.WallsMatchGrid | asgn3/blockyAnimal/World.js:317-340 | a wall sits at a cell's centre iff the grid holds '#' there |
| Scenery.CellCentreInjective | asgn3/blockyAnimal/World.js:330-334 | distinct cells have distinct centres |
| Scenery.WallsRowMajor | asgn3/blockyAnimal/World.js:324-338 | built walls come in row-major order |
| Scenery.PacmanMapShape | asgn3/blockyAnimal/World.js:102-110 | the map has 7 rows of 24 characters |
| Scenery.LastNear | asgn3/blockyAnimal/World.js:437-453 | the index found is the last wall within 0.001 of the target; none iff no wall is near |
| Scenery.Removed | asgn3/blockyAnimal/World.js:441 | splice(i, 1): one element gone, the others in order |
| Scenery.DeleteLast | asgn4/blockyAnimal/blockyAnimal.js:313-320 | with no wall near the cell the list is unchanged; otherwise exactly the last near wall is removed: some near index i with no near wall after it, and the result is the list without position i |
| Scenery.DeleteAfterAppend | asgn4/blockyAnimal/blockyAnimal.js:298-320 | deleting right after appending a near cube returns the old list |
| Scenery.DeleteSkipsFarPrefix | asgn3/blockyAnimal/World.js:437-453 | deletion leaves a prefix with no near wall untouched |
| Scenery.LayWalls | asgn3/blockyAnimal/World.js:317-340 | the loops build exactly `BuiltWalls` of the grid |
| Scenery.LayPellets | asgn3/blockyAnimal/World.js:251-278 | the loops build exactly `BuiltPellets` of the grid |
| Scenery.NewPellet | asgn3/blockyAnimal/World.js:260-271 | the cube built for one pellet is `PelletCube` |
| Scenery.WallsAtAppend | asgn3/blockyAnimal/World.js:336 | one more cell pushes one more wall |
| Scenery.PelletsAtAppend | asgn3/blockyAnimal/World.js:271 | one more cell pushes one more pellet |
| MazeWorld.Modify | asgn3/blockyAnimal/World.js:394-454 | no-op for a zero look vector or a cell outside [0,32)²; otherwise adding counts a block iff no wall is near the cell, and then appends one wall cube (texture 3) at the cell and nothing else, while an existing near wall leaves everything unchanged; deleting leaves the walls as `DeleteLast` at the cell and counts the removal; each counter moves by at most one |
| MazeWorld.AddIsIdempotent | asgn3/blockyAnimal/World.js:421-436 | adding twice at one cell equals adding once |
| MazeWorld.AddThenDeleteRestores | asgn3/blockyAnimal/World.js:421-453 | add then delete at an empty cell restores the wall list |
| MazeWorld.BuiltWallsAreFar | asgn3/blockyAnimal/World.js:102-110 | no built wall is near an integer delete target, because the map's z offsets are half-integers |
| MazeWorld.HalfIsFar | asgn3/blockyAnimal/World.js:333 | an integer is never within 0.001 of k − 3.5 |
| MazeWorld.DeleteSparesBuiltWalls | asgn3/blockyAnimal/World.js:437-453 | deletion only ever removes blocks added later |
| MazeWorld.Uneaten | asgn3/blockyAnimal/World.js:281-298 | the kept pellets are a sub-list of the old ones |
| MazeWorld.UneatenExact | asgn3/blockyAnimal/World.js:281-298 | a pellet is kept iff it was there and is not within 0.5 of the eye |
| MazeWorld.UneatenAppend | asgn3/blockyAnimal/World.js:286-297 | eating distributes over concatenation |
| MazeWorld.UneatenIdempotent | asgn3/blockyAnimal/World.js:281-298 | eating twice at one spot equals eating once |
| MazeWorld.UneatenStep | asgn3/blockyAnimal/World.js:286-297 | one step of the backward splice loop |
| MazeWorld.World.constructor | asgn3/blockyAnimal/World.js:80-91 | empty lists and zero counters; the camera starts at the initial pose |
| MazeWorld.World.BuildWorld | asgn3/blockyAnimal/World.js:317-340 | the walls become `BuiltWalls` of the map; everything else unchanged |
| MazeWorld.World.BuildPellets | asgn3/blockyAnimal/World.js:251-278 | the pellets become `BuiltPellets`; initial count = their number, eaten = 0 |
| MazeWorld.World.EatPellets | asgn3/blockyAnimal/World.js:281-298 | the pellets become `Uneaten`; eaten grows by the number removed, so eaten + remaining = initial |
| MazeWorld.World.ModifyBlockInFront | asgn3/blockyAnimal/World.js:394-454 | walls and counters become `Modify` of the old ones |
| MazeWorld.World.KeyDown | asgn3/blockyAnimal/World.js:457-470 | arrows move the camera, b adds, d deletes; q and e throw because the camera lacks panLeft/panRight |
| MazeWorld.World.KeyPress | asgn3/blockyAnimal/World.js:471-479 | one press runs the handler twice, the second run despite a throw in the first: an arrow moves the camera by two steps; b or d applies `Modify` twice to the same cell with the camera unchanged |
| BlockWorld.SetCell | asgn4/blockyAnimal/blockyAnimal.js:306-309 | one character replaced; every other character, row and row length unchanged |
| BlockWorld.Modify | asgn4/blockyAnimal/blockyAnimal.js:272-326 | no-op outside the grid; inside, the cell becomes '#' or '.'; adding always appends exactly one brick cube (texture 0) centred on the cell; deleting leaves the walls as `DeleteLast` at the cell's centre |
| BlockWorld.AddTwiceStacks | asgn4/blockyAnimal/blockyAnimal.js:298-304 | adding twice at one cell appends two walls (no duplicate check) |
| BlockWorld.AddThenDeleteRestores | asgn4/blockyAnimal/blockyAnimal.js:298-320 | add then delete at one cell restores the wall list |
| BlockWorld.DeleteMarksEmptyCell | asgn4/blockyAnimal/blockyAnimal.js:321-324 | deleting at a cell with no wall still writes '.' there |
| BlockWorld.AddedBlockSurvivesRebuild | asgn4/blockyAnimal/blockyAnimal.js:192-217 | after an add, rebuilding from the grid puts a wall at that cell |
| BlockWorld.BuiltWallsPlaced | asgn4/blockyAnimal/blockyAnimal.js:192-217 | every built wall is a translation |
| BlockWorld.World.constructor | asgn4/blockyAnimal/blockyAnimal.js:56-75 | the map, no walls, camera at the initial pose |
| BlockWorld.World.BuildWorld | asgn4/blockyAnimal/blockyAnimal.js:192-217 | the walls become one brick cube (texture 0) per '#', the grid unchanged |
| BlockWorld.World.ModifyBlockInFront | asgn4/blockyAnimal/blockyAnimal.js:272-326 | grid and walls become `Modify` of the old ones |
| BlockWorld.World.KeyDown | asgn4/blockyAnimal/blockyAnimal.js:328-339 | arrows move the camera, a adds, d deletes, other keys (q and e included) change nothing |
| BlockWorld.World.KeyPress | asgn4/blockyAnimal/blockyAnimal.js:340-350 | one press runs the handler twice: an arrow moves the camera by two steps; a or d applies `Modify` twice to the same cell with the camera unchanged |
| PacmanGame.GMapShape | asgn3/blockyAnimal/World.js:542-575 | a 32×32 grid whose cells follow the border and room rule |
| PacmanGame.Moved | asgn3/blockyAnimal/pacman.js:8-21 | y kept; either no move or a move by (dx, dz) onto an open cell inside the grid |
| PacmanGame.StartIsOpen | asgn3/blockyAnimal/pacman.js:3 | the start (1,0,1) is a 0 cell |
| PacmanGame.BlockedMoveIsNoop | asgn3/blockyAnimal/pacman.js:13-16 | a target outside the grid or on a non-zero cell leaves the position unchanged |
| PacmanGame.MoveKeepsOpen | asgn3/blockyAnimal/pacman.js:12-20 | from a 0 cell every move ends on a 0 cell |
| PacmanGame.UnitMoveStaysInRoom | asgn3/blockyAnimal/pacman.js:12-20 | a unit move never crosses a wall of the grid |
| PacmanGame.Pacman.constructor | asgn3/blockyAnimal/pacman.js:2-6 | position (1,0,1), yellow, a fresh cube |
| PacmanGame.Pacman.Move | asgn3/blockyAnimal/pacman.js:8-21 | the position becomes `Moved` of the old one, written in place |
| PacmanGame.Pacman.Render | asgn3/blockyAnimal/pacman.js:23-33 | texture −2, its colour, translation (x − 16, 0, z − 16), 36 vertices |
| MazeCube.Flatten | asgn3/blockyAnimal/Cube.js:75-96 | nine numbers per triangle |
| MazeCube.FlattenIndex | asgn3/blockyAnimal/Cube.js:75-96 | number k of triangle t sits at 9t + k |
| MazeCube.CubeVertsBinary | asgn3/blockyAnimal/Cube.js:25-38 | the table has 108 numbers, each 0 or 1 |
| MazeCube.CubeTableTilesCube | asgn3/blockyAnimal/Cube.js:25-38 | every triangle is flat on one face and each of the six faces gets exactly two |
| MazeCube.FastTilesCube | asgn3/blockyAnimal/Cube.js:75-96 | the twelve triangles listed in renderfast tile the cube too |
| MazeCube.RenderFastMissesFaces | asgn3/blockyAnimal/Cube.js:73-97 | the seven triangles that survive never cover the z = 0 or y = 1 face |
| MazeCube.Cube.constructor | asgn3/blockyAnimal/Cube.js:2-39 | white, texture 0, identity matrix; cubeVerts32 and cubeVerts hold the same table |
| MazeCube.Cube.Render | asgn3/blockyAnimal/Cube.js:41-59 | its texture and colour, 36 vertices from the shared buffer |
| MazeCube.Cube.RenderFast | asgn3/blockyAnimal/Cube.js:61-98 | as written: no texture sent, 63 numbers, 21 vertices |
| MazeCube.Cube.RenderFastCorrected | asgn3/blockyAnimal/Cube.js:61-98 | corrected: all 108 numbers, 36 vertices, tiling the cube |
| MazeCube.Cube.RenderFaster | asgn3/blockyAnimal/Cube.js:99-125 | texture −2 whatever textureNum is, the uploaded cubeVerts32, 36 vertices |
| LitScene.ClampHeight | asgn4/blockyAnimal/World.js:431 | the height is clamped into [−5, 10] |
| LitScene.KeyStep | asgn4/blockyAnimal/World.js:402-431 | height in [−5, 10] after any key; distance stays in [1, 20]; unrecognised keys keep angle and distance |
| LitScene.DragStep | asgn4/blockyAnimal/World.js:386-392 | distance kept, height clamped into [−5, 10] |
| LitScene.EyeOnCircle | asgn4/blockyAnimal/World.js:260-265 | the eye lies on the circle of radius distance at height `height` |
| LitScene.ZoomRoundTrip | asgn4/blockyAnimal/World.js:405-410 | w then s restores the record when no clamp applied |
| LitScene.TurnRoundTrip | asgn4/blockyAnimal/World.js:411-428 | a then d, and left arrow then right arrow, restore the record |
| LitScene.Scene.constructor | asgn4/blockyAnimal/World.js:121-144 | eye (0,2,8), angle 45, distance 8, height 2, lighting on, the other flags off |
| LitScene.Scene.UpdateCamera | asgn4/blockyAnimal/World.js:260-265 | the eye follows the record; at and up are untouched |
| LitScene.Scene.ToggleLighting | asgn4/blockyAnimal/World.js:270-273 | flips exactly one flag |
| LitScene.Scene.ToggleNormals | asgn4/blockyAnimal/World.js:278-281 | flips exactly one flag |
| LitScene.Scene.ToggleAnimation | asgn4/blockyAnimal/World.js:286-289 | flips exactly one flag |
| LitScene.Scene.ToggleSpotlight | asgn4/blockyAnimal/World.js:294-297 | flips exactly one flag |
| LitScene.Scene.MouseDown | asgn4/blockyAnimal/World.js:370-374 | dragging set, position recorded |
| LitScene.Scene.MouseUp | asgn4/blockyAnimal/World.js:376-378 | dragging cleared |
| LitScene.Scene.MouseMove | asgn4/blockyAnimal/World.js:380-400 | nothing unless dragging; otherwise `DragStep`, eye re-synced, position recorded |
| LitScene.Scene.KeyDown | asgn4/blockyAnimal/World.js:402-441 | the record becomes `KeyStep` of the old one and the eye is re-synced |
| LitCube.LayoutTilesStride | asgn4/blockyAnimal/Cube.js:25-31 | position, uv and normal sit side by side from offset 0 and fill the stride of 8 |
| LitCube.Cube.constructor | asgn4/blockyAnimal/Cube.js:3-9 | white, texture −2, identity model and normal matrices |
| LitCube.Cube.Render | asgn4/blockyAnimal/Cube.js:11-34 | the normal matrix becomes `NextNormal`; model and colour unchanged; 36 vertices with the layout |
| LitCube.Cube.RenderFast | asgn4/blockyAnimal/Cube.js:36-39 | behaves exactly as render |
| LitCube.Cube.RenderFaster | asgn4/blockyAnimal/Cube.js:41-44 | behaves exactly as render |
| OrbitControls.Clamp | lion_king/ControlsManager.js:73 | the result is in [lo, hi], and equals v when v already is |
| OrbitControls.Turn | lion_king/ControlsManager.js:68-74 | radius kept, phi clamped into [0.1, π − 0.1] |
| OrbitControls.Zoom | lion_king/ControlsManager.js:93-99 | theta and phi kept, radius clamped into [10, 50] |
| OrbitControls.StartInRange | lion_king/ControlsManager.js:15-19 | the start (25, 0, π/3) is in range |
| OrbitControls.TurnRoundTrip | lion_king/ControlsManager.js:68-74 | a drag and the opposite drag cancel when phi was not clamped |
| OrbitControls.ZoomRoundTrip | lion_king/ControlsManager.js:93-99 | wheel travel and its opposite cancel when the radius was not clamped |
| OrbitControls.Controls.constructor | lion_king/ControlsManager.js:2-25 | radius 25, theta 0, phi π/3, no button held |
| OrbitControls.Controls.MouseDown | lion_king/ControlsManager.js:43-52 | button 0 sets left, button 2 sets right, the mouse position is always recorded |
| OrbitControls.Controls.MouseUp | lion_king/ControlsManager.js:54-60 | only the released button's flag is cleared |
| OrbitControls.Controls.MouseMove | lion_king/ControlsManager.js:62-91 | nothing without a button; left (which wins over right) turns; phi stays in range |
| OrbitControls.Controls.MouseWheel | lion_king/ControlsManager.js:93-99 | the radius stays in [10, 50] |
| OrbitControls.Controls.TouchStart | lion_king/ControlsManager.js:101-107 | only a single touch acts, setting left |
| OrbitControls.Controls.TouchMove | lion_king/ControlsManager.js:109-121 | a single touch with left set turns like a left drag |
| OrbitControls.Controls.TouchEnd | lion_king/ControlsManager.js:123-125 | the left flag is cleared |
| Cone.Shade | asgn4/blockyAnimal/Cone.js:32-38 | alpha kept, rgb scaled by 0.7 and so no larger and still in range |
| Cone.Draws | asgn4/blockyAnimal/Cone.js:19-44 | 2·segments draws, alternately the side and the base triangle of each slice |
| Cone.BaseReversesSide | asgn4/blockyAnimal/Cone.js:25-43 | the base triangle is (origin, p2, p1), the side triangle's rim in reverse, below apex (0, height, 0) |
| Cone.SlicesShareRim | asgn4/blockyAnimal/Cone.js:20-23 | p2 of slice i is p1 of slice i + 1, and rim points have y = 0 |
| Cone.RimCloses | asgn4/blockyAnimal/Cone.js:17-23 | the last slice ends where the first begins |
| Cone.Cone.constructor | asgn4/blockyAnimal/Cone.js:2-9 | 20 segments, radius 1, height 1, orange (1, 0.5, 0, 1) by default |
| Cone.Cone.Render | asgn4/blockyAnimal/Cone.js:11-45 | the model matrix, then exactly `Draws` of the cone |
| Sphere.Grid | asgn4/blockyAnimal/Sphere.js:28-46 | (segments + 1) points per row in push order |
| Sphere.ArraysAt | asgn4/blockyAnimal/Sphere.js:40-44 | point p sits at 3p.. of the position and normal arrays and at 2p.. of the uv array |
| Sphere.CellInGrid | asgn4/blockyAnimal/Sphere.js:51-52 | the indices first, first + 1, second, second + 1 are below (segments + 1)² |
| Sphere.Mesh | asgn4/blockyAnimal/Sphere.js:49-84 | exactly 2·segments² triangles |
| Sphere.MeshAt | asgn4/blockyAnimal/Sphere.js:49-84 | the triangles of cell (lat, lon) sit at 2(lat·n + lon) and the next index |
| Sphere.CellsShareEdges | asgn4/blockyAnimal/Sphere.js:55-72 | the two triangles of a cell share the edge (second, first + 1); neighbouring cells share edges |
| Sphere.OnUnitSphere | asgn4/blockyAnimal/Sphere.js:29-43 | every normal has length 1 and every position length 1/2 |
| Sphere.DrawnCornersOnSphere | asgn4/blockyAnimal/Sphere.js:42-84 | every corner drawn has a unit normal and a position equal to half the normal |
| Sphere.NorthPole | asgn4/blockyAnimal/Sphere.js:28-41 | row 0 is the point (0, 1, 0) |
| Sphere.SouthPole | asgn4/blockyAnimal/Sphere.js:28-41 | the last row is the point (0, −1, 0) |
| Sphere.SeamCloses | asgn4/blockyAnimal/Sphere.js:33-44 | the last column meets the first, with u 1 and 0 |
| Sphere.TexCoordInUnitSquare | asgn4/blockyAnimal/Sphere.js:44 | every uv lies in [0,1]² |
| Sphere.BuildGrid | asgn4/blockyAnimal/Sphere.js:28-46 | the loops build exactly the position, normal and uv arrays of `Grid` |
| Sphere.DrawCells | asgn4/blockyAnimal/Sphere.js:49-84 | the loops draw exactly `Mesh` of the arrays |
| Sphere.Sphere.constructor | asgn4/blockyAnimal/Sphere.js:3-10 | white, texture −2, 16 segments, identity matrices |
| Sphere.Sphere.Render | asgn4/blockyAnimal/Sphere.js:12-85 | the normal matrix becomes `NextNormal`, the model matrix is unchanged, and 2·16² triangles of the mesh are drawn |

## Left out

- `Matrix4.rotate`, `setPerspective` and `setLookAt`: these are trigonometric and square-root numerics with no exact-real content worth stating. `rotate` returns NaN for a zero axis. `setPerspective` takes sin/cos of the whole fovy rather than fovy/2.
- `Matrix4.setRotate` and `multiplyVector3`: the asgn4 pan calls them, but this Matrix4 does not define them. The rotation is a parameter of `FlyCamera.Camera`, and `FlyCamera.PanRoundTrip` assumes a −5 degree turn undoes a +5 degree one.
- Vector length: `Vector3.normalize`, `Math.sqrt` and `Math.hypot` enter as a length function characterised by `Vectors.IsNorm`. `Math.sin`/`Math.cos` enter as parameters.
- Floating point: Float32 arrays and double rounding (for example sin(π) is not exactly 0) are not modelled; everything is exact reals. The 1e-3 tolerance in the wall searches is kept as written.
- `MazeWorld.World.ModifyBlockInFront` and `BlockWorld.World.ModifyBlockInFront`: the target cell `Math.round(eye + look/|look| + 16)` is taken as the inputs `mapX`, `mapZ`. The model does not check that these are the rounded values.
- `BlockWorld.World.ModifyBlockInFront`: it requires a non-zero flat look vector. The source divides by its length without a guard, so the target cell is NaN. Every comparison in the bounds test is false for NaN, so the test lets it through. The add path then pushes a cube at NaN to `g_walls` before `pacmanMap[NaN].split('')` throws. The delete path throws at the same indexing.
- `Canvas.ToClip`: `canvas.width`/`canvas.height` are taken equal to the bounding rectangle's width and height, which holds only when the canvas is not scaled by CSS.
- `ControlsManager.update` and the three.js camera: the pan branch's right and up vectors (columns of the camera matrix) are parameters of `OrbitControls.Controls.MouseMove`.
- `Cone.Cone.Render`: with `segments` 0 the source's step is Infinity and its loop does not run. The model uses a step of 0, and likewise draws nothing.
- `Sphere.Sphere.Render`: the segment count is the constructor's fixed 16. Other counts are covered by the `Grid`/`Mesh` lemmas for every n > 0.
- `PacmanGame.Pacman.Move`: no handler in asgn3 calls it; it is modelled as a method anyway.
- `LitScene.Scene.UpdateCamera`: the eye's x and z use sin and cos of the angle in degrees, which are parameters. `LitScene.EyeOnCircle` assumes sin² + cos² = 1 for them.
- The `click` handlers and `convertCoordinatesEventToGl` in asgn3 World.js (496-525) and asgn4 blockyAnimal.js (364-393): they are the same code as asgn1's, which `ColoredPoints.Painter.Click` and `Canvas.ToClip` model. They build a point, triangle or circle and push it to `g_shapesList`. No handler is installed for them, because `canvas.onmousedown` is the camera drag (World.js:157, blockyAnimal.js:121), so they are dead code and are not modelled again.
- Keys.Lower: lowers ASCII letters only, where JavaScript's `toLowerCase` lowers every Unicode letter. Every key name the handlers compare against is ASCII, so the dispatch of every key is the same under both.
- `MazeWorld.World.KeyDown` and `BlockWorld.World.KeyDown` model one run of the handler. Each page installs it twice, as a window listener and as `document.onkeydown`. `MazeWorld.World.KeyPress` and `BlockWorld.World.KeyPress` model what one press does (see Findings). The cell for the second run is the same as for the first: an edit leaves the camera in place.
- Not modelled at all: the rest of the Lion King viewer (model loading, animation, lighting, scene setup), shader strings, WebGL buffer and texture setup, DOM text updates, FPS timing, `drawMap`, scene assembly in `renderAllShapes`/`renderScene`, the light animation and light/spotlight sliders, and asg0/asgn2. These are I/O, GPU plumbing or trigonometric animation.

## Findings

| source | as written | input that shows it | evidently intended | confidence | as-written member | corrected member |
|---|---|---|---|---|---|---|
| asgn3/blockyAnimal/Camera.js:8-31 | forward's `set(this.at)` overwrites the `sub`, so the step is normalize(at). back steps by +normalize(eye) | step left from the initial pose, then forward: eye.x changes although the line of sight has x = 0. From eye (0,0,−3), at (0,0,−100), forward then back leaves eye at (0,0,−5) | step by ±normalize(at − eye), so forward and back undo each other | not executed | MazeCamera.ForwardPose, MazeCamera.ForwardLeavesLineOfSight, MazeCamera.BackDoesNotUndoForward | MazeCamera.CorrectedForwardPose, MazeCamera.CorrectedRoundTrip, MazeCamera.CorrectedForwardAlongSight |
| asgn3/blockyAnimal/Cube.js:73-97 | the first six `concat`s start from the never-updated empty `alrverts`, so only the sixth survives | any call of renderfast: 63 numbers (21 vertices) are sent, and the z = 0 and y = 1 faces are never drawn | concatenate all twelve triangles, 108 numbers, 36 vertices | not executed | MazeCube.Cube.RenderFast, MazeCube.RenderFastMissesFaces | MazeCube.Cube.RenderFastCorrected, MazeCube.FastTilesCube |
| asgn4/blockyAnimal/blockyAnimal.js:340-350 | `keydown` is installed both with `window.addEventListener` and as `document.onkeydown`, so every press runs it twice | one up-arrow press from the initial pose leaves the eye at (0,0,2.6), not (0,0,2.8). One 'a' press stacks two bricks on the cell | one run of the handler per press: a 0.2 step, one brick | not executed | BlockWorld.World.KeyPress, FlyCamera.ForwardTwiceFromInitial, BlockWorld.AddTwiceStacks | BlockWorld.World.KeyDown, FlyCamera.StepIsTwoTenths |
| asgn3/blockyAnimal/World.js:471-479 | the same double installation of `keydown` | one left-arrow press from the initial pose leaves the eye at (−2,0,3), not (−1,0,3). One q press throws twice | one run of the handler per press: a one-unit step | not executed | MazeWorld.World.KeyPress, MazeCamera.LeftTwiceFromInitial | MazeWorld.World.KeyDown, MazeCamera.LeftOfInitial |
