# A verified model of the 3D shape renderer's pipeline

`build/web/script3d.js` draws a cube, a cone or a sphere on a canvas. The user
can rotate the shape by dragging and scale it with a slider. The colour comes
from a colour picker, and an axis overlay with tick marks can be switched on.
This project models the script's geometry and colour pipeline in Dafny:

- **Colour** (`colour.dfy`): `shadeColor`. It parses `#RRGGBB` into three
  channels and scales each by `(100 + percent * 100) / 100`. It then truncates
  like `parseInt`, caps at 255 from above only, and writes each channel back
  with `toString(16)` and the script's one-character padding. A negative
  channel is written as `-` followed by hexadecimal digits, as the code does.
- **Geometry** (`geometry.dfy`): `rotatePoint` and the projection
  `(centerX + x, centerY - y)`. Dafny has no trigonometry, so the values of
  `Math.cos` and `Math.sin` are passed in as reals. `IsUnit` (`cos^2 + sin^2 = 1`)
  is required only by the lemmas that need it.
- **Primitives** (`primitives.dfy`): the vertex lists and the faces, over
  vertex indices, of `drawCube`, `drawCone` and `drawSphere`. The loops that
  `push` into arrays are methods proved equal to specification functions.
- **Painter** (`painter.dfy`): `faces.sort` with comparator `avgZB - avgZA`.
  It is an in-place insertion sort on an `array<Face>`, proved equal to a
  functional stable sort. The lemmas show that this sort permutes its input,
  orders it by non-increasing average z, and keeps faces of equal depth in
  emission order.
- **Axes** (`axes.dfy`): `drawAxis` and the tick loop of `drawAxisMarkers`.
- **Scene** (`scene.dfy`): the shared body of the three `draw*` functions.
  It generates, rotates, builds faces, sorts, and then runs `forEach` /
  `drawFace`. `drawFace` gives each face its projected outline, its gradient
  anchors, its fill `shadeColor(color, shade)` and its second stop
  `shadeColor(fill, -0.5)`.
- **View** (`view.dfy`): the script's module-level variables as the class
  `ViewState`, with one method per event handler, and `draw` as `Draw`.

The script defines `shadeColor` and `rotatePoint` again inside each `draw*`
function (lines 272-308, 368-404 and 478-514), and one more `rotatePoint` at
the top level (line 517). These copies are identical, so each function is
modelled once. `drawFace` is also defined three times (lines 255-270, 351-366
and 461-476). Its copies differ only in the end point of the gradient. The
cube and the sphere use `points[2]` (lines 256 and 462), and the cone uses
`points[1]` (line 352). `Scene.GradientEnd` models that difference.

### Where the code departs from the renderer's design description

The renderer's written design description states some behaviours that the
code does not have. The model follows the code in each case:

- **Cube shades.** The design description gives the six cube faces the shades
  -0.1, -0.1, -0.1, -0.2, -0.3, -0.4, in that order. The code emits
  -0.1, -0.3, -0.1, -0.2, -0.1, -0.4 (lines 236-241).
  `Primitives.CubeFacesAreSides` states the code's order.
- **Painting order.** The design description's worked example of a cube at
  rest paints the z = -length/2 face (vertices 0 to 3) first. The comparator
  `avgZB - avgZA` (lines 245-249) sorts by descending average z, so the face
  with the greatest z is painted first. For a cube at rest, the z = +length/2
  face (vertices 4 to 7) is therefore painted first and the z = -length/2 face
  last. See `Scene.CubePaintOrderAtRest`.
- **Tick count.** The design description expects 9 ticks on the x axis of an
  800 x 600 canvas at zoom 1, which is one marker per 50 pixels of the
  half-axis. The code computes `numMarkers` from the whole axis,
  `|endPositive[axis] - endNegative[axis]|` (line 177). That canvas therefore
  gets 16 markers and 17 ticks. See `Axes.MarkerCountExample`.
- **Malformed colours.** The design description asks `shadeColor` to fail
  with `InvalidColorFormat` on text that is not `#rrggbb`. The code does not
  check the text. It never checks the `#`. It reads each channel with
  `parseInt(..., 16)`, which keeps any leading valid digits: `"1g"` reads as 1.
  A channel with no valid digit reads as NaN, and `(NaN < 255) ? R : 255` turns
  NaN into 255, which is written `ff`. For example, `shadeColor("#abc", -0.1)`
  is `#990aff`. `Colour.ShadeColour` returns `Err(InvalidColourFormat)` for
  anything other than `#` followed by six hexadecimal digits. The colour picker
  only produces well-formed colours, and `View.ViewState.Valid` keeps that
  invariant.

## Model

| member | source | states |
|---|---|---|
| `Colour.Parse` | build/web/script3d.js:273-275 | succeeds exactly on `#` plus six hexadecimal digits (either case), and then yields three channels in 0..255 |
| `Colour.HexText` | build/web/script3d.js:285-287 | `toString(16)` of a non-negative number is at least one lower-case hexadecimal digit, and a single digit exactly when the number is below 16 |
| `Colour.Trunc` | build/web/script3d.js:277-279 | `parseInt` of a number rounds toward zero: floor for non-negative values, ceiling for negative ones |
| `Colour.ShadeChannel` | build/web/script3d.js:277-283 | a shaded channel never exceeds 255; it is 255 exactly when the truncated scaled value reaches 255, and otherwise equals that value (no lower cap) |
| `Colour.ShadeColour` | build/web/script3d.js:272-290 | the shader produces text exactly when its input is a well-formed colour, and reports `InvalidColourFormat` otherwise |
| `Colour.FormatIsLowerColour` | build/web/script3d.js:285-289 | three channels in 0..255 are written as `#` and six lower-case hexadecimal digits |
| `Colour.ParseFormat` | build/web/script3d.js:273-289 | decoding what the shader's encoder writes gives back the same three channels |
| `Colour.ChannelDigits` | build/web/script3d.js:285-289 | the two hexadecimal digits written for a byte read back as that byte |
| `Colour.FormatParse` | build/web/script3d.js:273-289 | encoding a decoded colour gives back its text with the digits in lower case |
| `Colour.ShadeZeroIsIdentity` | build/web/script3d.js:272-290 | `shadeColor(c, 0)` returns `c` with its hexadecimal digits in lower case |
| `Colour.NegativeChannelText` | build/web/script3d.js:285-287 | a negative channel is written with a leading minus sign, in at least two characters |
| `Colour.ShadeWellFormedIff` | build/web/script3d.js:277-289 | the output is a well-formed colour if and only if no channel truncates to a negative value |
| `Colour.ShadeChannels` | build/web/script3d.js:273-289 | for `percent >= -1` the output is `#` plus six lower-case digits, and each channel reads back as `min(255, trunc(c * (100 + 100 * percent) / 100))` |
| `Colour.ShadeNeverBrightens` | build/web/script3d.js:277-283 | with `percent <= 0` no channel increases |
| `Colour.ShadeSaturates` | build/web/script3d.js:281-287 | with `percent >= 0` every channel whose scaled value reaches 255 is written `ff` |
| `Colour.OverDarkeningBreaksFormat` | build/web/script3d.js:277-289 | `shadeColor("#ffffff", -2)` is `#-ff-ff-ff`, which is not a colour: darkening by more than 100 percent is not clamped |
| `Geometry.RotateAll` | build/web/script3d.js:233 | `points.map(rotatePoint)` keeps the length and rotates each point in place in the list |
| `Geometry.RotateAtRestIsIdentity` | build/web/script3d.js:517-533 | with zero rotation (cos 1, sin 0) and zoom 1, `rotatePoint` returns its input |
| `Geometry.RotateZoomLinear` | build/web/script3d.js:517-533 | output x and y are zoom times the zoom-1 result, and output z does not depend on zoom |
| `Geometry.RotateKeepsLength` | build/web/script3d.js:523-527 | at zoom 1, with unit cosine/sine pairs, the rotation keeps the distance from the origin |
| `Geometry.UnrotateRotate` | build/web/script3d.js:523-527 | at zoom 1, with unit cosine/sine pairs, the rotation is undone by turning back about y and then about x, so it is injective |
| `Geometry.ProjectReadsBack` | build/web/script3d.js:256-264 | the projection keeps x, flips y about the centre and ignores z |
| `Primitives.CubeVerticesOnBox` | build/web/script3d.js:220-231 | every one of the 8 cube vertices has all three coordinates at plus or minus length/2 |
| `Primitives.CubeFacesAreSides` | build/web/script3d.js:235-242 | the cube has 6 faces of 4 distinct vertex indices below 8, with shades -0.1, -0.3, -0.1, -0.2, -0.1, -0.4, and each face lies on a different side of the box |
| `Primitives.ConeVertices` | build/web/script3d.js:319-331 | the base loop yields the 36 base points at z = -height/2 in order, and the apex follows at z = +height/2 |
| `Primitives.ConeBaseOnCircle` | build/web/script3d.js:321-328 | with unit cosine/sine values every base point lies on the circle of the given radius, in the plane z = -height/2 |
| `Primitives.ConeFaces` | build/web/script3d.js:334-338 | the face loop pushes triangle `i` = (base `i`, base `(i + 1) % 36`, apex) for `i` = 0..35 |
| `Primitives.ConeFanCloses` | build/web/script3d.js:335-338 | 36 triangles of shade -0.3 over 37 vertices; each triangle's second base point is the next triangle's first, and the last wraps to vertex 0 |
| `Primitives.SphereVertices` | build/web/script3d.js:413-431 | the nested loops push the 31 x 31 grid row by row, so vertex (lat, long) is at index `lat * 31 + long` |
| `Primitives.SphereVerticesOnSphere` | build/web/script3d.js:415-429 | with unit cosine/sine values every grid vertex lies on the sphere of the given radius |
| `Primitives.SphereFaces` | build/web/script3d.js:433-448 | the nested loops push cell (lat, long) as quad number `lat * 30 + long` |
| `Primitives.SphereMeshInGrid` | build/web/script3d.js:434-446 | 900 quads of shade -0.3; the quad of cell (lat, long) has corners (lat, long), (lat + 1, long), (lat + 1, long + 1), (lat, long + 1), and every index lies in [0, 961) |
| `Painter.SumZOfQuad` | build/web/script3d.js:246 | the `reduce` over a quad's points is the sum of its four z values |
| `Painter.InsertIntoPrefix` | build/web/script3d.js:245-249 | one insertion step moves element `i` left past the faces whose average z is smaller; the rest of the array is unchanged |
| `Painter.OpenGap` | build/web/script3d.js:245-249 | the shifting loop moves the run of faces before `i` that are shallower than face `i` one place right, stops at the first face at least as deep, and leaves the rest of the array alone |
| `Painter.SortFaces` | build/web/script3d.js:245-249 | the in-place sort leaves the array in the stable descending order `PaintOrder` of its old contents |
| `Painter.InsertAt` | build/web/script3d.js:245-249 | inserting a face places it after the faces at least as deep and before the shallower ones at the end |
| `Painter.InsertPermutes` | build/web/script3d.js:245-249 | an insertion step adds exactly the inserted face |
| `Painter.PaintOrderPermutes` | build/web/script3d.js:245-249 | sorting permutes the faces (same multiset) |
| `Painter.PaintOrderMembers` | build/web/script3d.js:245-249 | every face in the sorted order is one of the input faces |
| `Painter.InsertMembers` | build/web/script3d.js:245-249 | an insertion step introduces no face other than the inserted one |
| `Painter.InsertKeepsOrder` | build/web/script3d.js:245-249 | inserting into a painting order gives a painting order |
| `Painter.OrderedSnoc` | build/web/script3d.js:245-249 | a face no deeper than every face of a painting order may be appended to it |
| `Painter.PaintOrderSorted` | build/web/script3d.js:245-249 | average z never increases along the sorted faces |
| `Painter.PaintOrderSnoc` | build/web/script3d.js:245-249 | sorting one more face is inserting it into the sorted order of the others |
| `Painter.SortStep` | build/web/script3d.js:245-249 | a face deeper than the last sorted face and no deeper than the one before goes just before the last |
| `Painter.AtDepthAppend` | build/web/script3d.js:245-249 | the faces at one depth of a concatenation are those of each part, in order |
| `Painter.InsertStable` | build/web/script3d.js:245-249 | the inserted face follows every face of equal depth already placed |
| `Painter.PassOver` | build/web/script3d.js:245-249 | moving a face past a shallower one keeps the order of the faces at every depth |
| `Painter.PaintOrderStable` | build/web/script3d.js:245-249 | for every depth, the faces at that depth appear in the sorted order exactly as they were emitted (stability) |
| `Axes.Ticks` | build/web/script3d.js:176-180 | the marker loop produces `numMarkers + 1` ticks |
| `Axes.AxisMarkers` | build/web/script3d.js:176-183 | the loop computes `numMarkers = floor(abs(endPositive[axis] - endNegative[axis]) / 50)` and tick `i` at `ratio = i / numMarkers` between the projected ends |
| `Axes.TicksWhenNoneFits` | build/web/script3d.js:178-181 | when no marker fits, the loop still runs once, with ratio `0 / 0`, so its single tick has no position |
| `Axes.TicksSpanAxis` | build/web/script3d.js:180-183 | when a marker fits, the first tick is at the projected negative end and the last at the projected positive end |
| `Axes.LastTick` | build/web/script3d.js:180-183 | the tick with ratio `n / n` sits exactly on the projected positive end |
| `Axes.TicksEvenlySpaced` | build/web/script3d.js:180-183 | consecutive ticks are one `numMarkers`-th of the projected axis apart |
| `Axes.TickStep` | build/web/script3d.js:180-183 | moving from ratio `i / n` to `(i + 1) / n` moves the tick by one n-th of the projected axis in x and y |
| `Axes.DrawAxis` | build/web/script3d.js:148-174 | the six half-axes of length `max(width, height) / 2` are rotated, drawn from the centre to their projected ends, and marked for x, y and z |
| `Axes.AxisSpanAtRest` | build/web/script3d.js:150-161 | without rotation the two ends of an axis are `2 * length` apart along it, scaled by zoom for x and y but not for z |
| `Axes.RotateAtRestZoom` | build/web/script3d.js:517-533 | without rotation `rotatePoint` scales x and y by zoom and keeps z |
| `Axes.MarkerCountAtRest` | build/web/script3d.js:176-180 | without rotation, x and y get `floor(2 * length * zoom / 50) + 1` ticks, and z gets `floor(2 * length / 50) + 1` whatever the zoom |
| `Axes.TickCountOfSpan` | build/web/script3d.js:176-180 | an axis whose ends are `span >= 0` apart along it gets `floor(span / 50) + 1` ticks |
| `Axes.MarkerCountExample` | build/web/script3d.js:176-180 | an 800 x 600 canvas at rest and zoom 1 gets 17 ticks on the x axis |
| `Scene.MeshFitsVertices` | build/web/script3d.js:235-242 | every face of every solid has 3 (cone) or 4 corners, each a valid vertex index, and a shade in [-0.4, -0.1] |
| `Scene.Realize` | build/web/script3d.js:236 | a face built from vertex indices has one point per index and keeps its shade |
| `Scene.RealizeAll` | build/web/script3d.js:235-242 | the faces list has one face per mesh entry, each built from that entry's vertex indices |
| `Scene.EmitFaces` | build/web/script3d.js:217-242 | the generator and face-building code of each `draw*` function yields the rotated vertices arranged as that solid's mesh (likewise lines 311-338 and 407-448) |
| `Scene.EmittedFacesShape` | build/web/script3d.js:235-242 | every emitted face has the solid's arity and a shade in [-0.4, -0.1] |
| `Scene.OrderedFacesShape` | build/web/script3d.js:245-249 | after sorting, every face still has the solid's arity and a shade in [-0.4, -0.1] |
| `Scene.PaintFaces` | build/web/script3d.js:251-253 | the `forEach` loop paints the sorted faces one by one, in order |
| `Scene.RenderShape` | build/web/script3d.js:217-270 | a `draw*` body paints exactly the painted forms of the sorted faces |
| `Scene.FaceCounts` | build/web/script3d.js:235-242 | a cube paints 6 faces, a cone 36 triangles and a sphere 900 quads |
| `Scene.PaintsByDepth` | build/web/script3d.js:245-253 | the faces are painted in a permutation of their emission order, from the greatest average z to the least, with equal depths in emission order |
| `Scene.PaintedFacesWellFormed` | build/web/script3d.js:255-264 | with a well-formed colour, every painted face has one projected point per corner and a gradient from point 0 to point 2 (point 1 on the cone). Its fill and second stop are well-formed lower-case colours, and the stop is no brighter than the fill |
| `Scene.PaintAllWellFormed` | build/web/script3d.js:251-258 | painting a list of faces of the solid's arity with shades in [-0.4, -0.1] gives only well-formed painted faces |
| `Scene.PaintWellFormed` | build/web/script3d.js:255-258 | one face painted with a well-formed colour has the right outline, gradient anchors and colour stops |
| `Scene.GradientStops` | build/web/script3d.js:252-258 | for a shade in [-1, 0], the fill `shadeColor(color, shade)` and the stop `shadeColor(fill, -0.5)` are both lower-case colours, and the stop is no brighter than the fill |
| `Scene.CubeDepthsAtRest` | build/web/script3d.js:222-247 | at rest, the cube faces have average z -length/2, +length/2, then 0 for the four sides |
| `Scene.CubeVerticesAtRest` | build/web/script3d.js:222-233 | at rest and zoom 1 the rotated cube vertices are the vertices themselves |
| `Scene.CubeFaceDepthAtRest` | build/web/script3d.js:222-247 | at rest, face 0 has average z -length/2, face 1 +length/2, and faces 2 to 5 have average z 0 |
| `Scene.CubeFaceSumZ` | build/web/script3d.js:235-247 | the `reduce` over the corners of cube face `k`, divided by 4, is -length/2 for face 0, +length/2 for face 1 and 0 for the four sides |
| `Scene.CubePaintOrderAtRest` | build/web/script3d.js:235-249 | at rest, a cube of positive length is painted as: the z = +length/2 face (vertices 4 to 7), the four sides in emission order, then the z = -length/2 face (vertices 0 to 3) |
| `Scene.SixFacesOrder` | build/web/script3d.js:245-249 | six faces at average z -o, +o (o > 0), then 0, 0, 0, 0 are painted as faces 1 to 5 in emission order, then face 0 |
| `Scene.SortedPrefix` | build/web/script3d.js:245-249 | for such faces, sorting the first `k` gives faces 1 to k-1, then face 0 |
| `View.ViewState.constructor` | build/web/script3d.js:17-23 | the page starts with no drag, rotation (0, 0), zoom 1, no shape, the picker's colour and the axes hidden |
| `View.ViewState.ChooseCube` | build/web/script3d.js:32-41 | an answered prompt replaces the shape with a cube of that length and asks for a redraw; a cancelled or empty one changes nothing |
| `View.ViewState.ChooseCone` | build/web/script3d.js:43-54 | only when both prompts are answered, the shape becomes that cone and a redraw follows |
| `View.ViewState.ChooseSphere` | build/web/script3d.js:56-65 | an answered prompt replaces the shape with a sphere of that radius and asks for a redraw |
| `View.ViewState.MoveSlider` | build/web/script3d.js:67-70 | zoom becomes the slider value divided by 5 |
| `View.ViewState.PickColour` | build/web/script3d.js:72-76 | the picked colour becomes the drawing colour |
| `View.ViewState.Clear` | build/web/script3d.js:82-90 | the shape is dropped and the axes end up hidden and unchecked; rotation, zoom and colour are unchanged |
| `View.ViewState.ToggleAxis` | build/web/script3d.js:100-103 | the axis flag follows the checkbox |
| `View.ViewState.MouseDown` | build/web/script3d.js:105-108 | a drag starts at the pointer position |
| `View.ViewState.MouseUp` | build/web/script3d.js:110-112 | the drag ends |
| `View.ViewState.MouseMove` | build/web/script3d.js:114-126 | while dragging, `0.01 * delta` is added to the rotation, the position is remembered and a redraw follows; otherwise nothing changes |
| `View.ViewState.Draw` | build/web/script3d.js:128-146 | a frame holds the axis overlay exactly when the axes are shown, then the faces of the current shape chosen by its kind, or none without a shape, both drawn at the cosines and sines of the stored `rotation` and zoom. Every painted face is well formed |
| `View.DragAccumulates` | build/web/script3d.js:114-126 | rotation accumulates across the moves of a drag: two moves turn the view by 0.01 times the whole pointer distance |
| `View.DragThenDraw` | build/web/script3d.js:105-146 | after a drag from one pointer position to another, the redraw paints the shape at the rotation turned by 0.01 times the pointer distance |
| `View.ClearHidesAxes` | build/web/script3d.js:82-90 | a redraw after clearing shows neither axes nor faces |

## Left out

- The canvas drawing calls (`beginPath`, `lineTo`, `fill`, `stroke`, gradient objects, colours of axis lines, marker strokes and fonts) are not modelled. The model stops at the coordinates and colours they are given.
- The text of the axis labels (`Math.round(ratio * totalLength - length)` and its y/z variant) is not modelled. It is only text passed to `fillText`.
- `prompt`, `parseFloat` and `parseInt` of user text are not modelled. A handler takes the parsed number, or `None` for a cancelled or empty answer. NaN from non-numeric text is not represented.
- The DOM wiring (`addEventListener`, `getElementById`, `updateColorOption`), the canvas sizing to the window, and the save-image handler are not modelled.
- `Math.sin`, `Math.cos` and `Math.PI` are not computed. Their values are parameters (`Trig`, `ViewTrig`, `Tables`), so the actual cone and sphere coordinates are abstract. `View.ViewState.Draw` takes `Math.cos` and `Math.sin` as arbitrary functions `real -> real` and applies them to the stored `rotation`.
- IEEE floating point is not modelled: the model uses exact reals. Rounding in the average-z sums, the colour scaling and the tick ratios is ignored.
- The unused `rotatedBaseCenter` (line 330) is not modelled.
- Each handler's call to `draw()` is represented by the handler's `redraw` result or by the comment on the method. `Draw` is a separate method that the caller runs.
- `Colour.ShadeColour`: for malformed colour text the model returns `Err(InvalidColourFormat)`. The script does not check the `#`, keeps the leading valid digits of each channel, and writes a channel with no valid digit as `ff` (NaN fails `R < 255`). For example, `shadeColor("#abc", -0.1)` is `#990aff`.
- `Colour.Trunc` models `parseInt` of a number by truncation. It does not model how `parseInt` first turns very large or very small numbers into exponent notation.
