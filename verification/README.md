# ClassyConfetti in Dafny

A model of `Confetti`, a confetti-burst effect built on the host's particle
emitter layer. An effect holds a colour palette and a list of content items
(built-in shapes or images). Emitting it over a view configures one particle
cell per content item, places the emitter at one of seven anchor positions of
the view's bounds, and installs a birth-rate animation that ramps emission
down to zero so the burst ends by itself.

The model is functional. Rectangles, anchors, shapes, cells and the emitter
layer are immutable datatypes. Construction and `Emit` are pure functions,
and `Emit` is a record-to-record update of the layer.

| file | module | models |
|---|---|---|
| `geometry.dfy` | `Geometry` | points, rectangles and their min / mid / max edges (standardized for negative sizes, as the host does) |
| `contents.dfy` | `Contents` | `Shape`, `Content`, the shape outlines (triangle vertices), a shape's image, `Content.image` |
| `anchor.dfy` | `Anchor` | `Position` and `getPoint` |
| `cells.dfy` | `Cells` | cell constants, `nextColor`, `configure` |
| `emitter.dfy` | `Emitter` | `init` defaults, the birth-rate animation, `emit` |

Colours and supplied images are opaque tokens. π is a named constant. The
host clock reading (`CACurrentMediaTime()`) is the parameter `now` of `Emit`,
and the view is represented by its bounds rectangle.

Three points of the code that the model keeps as written:

- `top`, `topLeft` and `topRight` use the literal y = 0, and `topLeft` is the
  literal point (0, 0), not `minX`/`minY`. The bottom anchors and the centre
  use the bounds' own edges. `Anchor.GetPointIsEdgeIff` proves that every
  anchor resolves to the corner, edge midpoint or centre it names exactly when
  the bounds' left and top edges are x = 0 and y = 0. That lemma is about
  `getPoint`'s value in the view's bounds coordinates. Where the emitter
  appears on screen, after its frame is set to the view's bounds, is not
  modelled; the same restriction is why `Emitter.EmitInsideFrame` assumes
  bounds at the origin.
- An explicit empty palette is accepted. It only fails when a colour is
  requested. Swift's `map` over an empty content list never calls
  `nextColor`, so `Configure` and `Emit` require
  `|content| > 0 ==> |colors| > 0` (`Cells.Configurable`). They do not require
  a non-empty palette.
- The ramp's start value 2 and the cells' birth rate 100 are read with the
  host emitter's rule that the layer's birth rate multiplies every cell's rate.
  So the ramp starts at 200 particles per second per cell and ends at 0
  (`Emitter.EmitSelfTerminates`).

A fresh layer is assumed to have the host's defaults: birth rate 1, position
(0, 0), no cells, a zero frame, begin time 0, no animations, and no parent.
`Emit` overwrites every one of these except the animations stored under other
keys.

## Model

| member | source | states |
|---|---|---|
| `Contents.TriangleVertices` | ClassyConfetti/Classes/Confetti.swift:99-107 | the triangle outline is a closed 4-point polyline. Its apex is on the literal line y = 0, not the rectangle's top edge. Its base is the bottom edge, from the right edge x = maxX to the left edge x = minX. The apex is horizontally halfway between the base corners, at midX |
| `Contents.ShapePath` | ClassyConfetti/Classes/Confetti.swift:95-111 | the circle is the ellipse inscribed in the rectangle and the square is the rectangle itself. The triangle, and only the triangle, is the closed polyline of `TriangleVertices` |
| `Contents.TriangleIsosceles` | ClassyConfetti/Classes/Confetti.swift:100-106 | the apex is equally far from both base corners for every rectangle, so the triangle is isosceles |
| `Contents.ShapeImage` | ClassyConfetti/Classes/Confetti.swift:113-119 | a shape's image is drawn on a canvas with origin (0, 0) and exactly the requested width and height. The outline filled is that shape's path in the canvas |
| `Contents.ShapeImageOutlineWithinCanvas` | ClassyConfetti/Classes/Confetti.swift:95-117 | for a non-negative size, the frame of the circle and of the square is the canvas. Every triangle vertex lies inside the canvas, and the apex is on its top edge |
| `Contents.ContentImage` | ClassyConfetti/Classes/Confetti.swift:83-89 | a supplied image is passed through unchanged. A shape item yields a rendered image of its own shape and size |
| `Anchor.GetPoint` | ClassyConfetti/Classes/Confetti.swift:127-143 | `bottom`, `bottomLeft`, `bottomRight` and `center` always resolve to the corner, edge midpoint or centre they name. The three top anchors sit on the literal line y = 0, and `top` and `topRight` keep the named x (midX, maxX). `topLeft` is the literal (0, 0) |
| `Anchor.GetPointIsEdgeIff` | ClassyConfetti/Classes/Confetti.swift:127-143 | all seven anchors resolve to the corner, edge midpoint or centre they name if and only if the bounds' left and top edges are 0 |
| `Anchor.GetPointWithinBounds` | ClassyConfetti/Classes/Confetti.swift:127-143 | for bounds at the origin with a non-negative size, every anchor lies inside the closed bounds |
| `Cells.NextColor` | ClassyConfetti/Classes/Confetti.swift:63-65 | the colour for any index comes from the palette. For an index below the palette length, it is the palette entry at that index |
| `Cells.NextColorPeriodic` | ClassyConfetti/Classes/Confetti.swift:63-65 | the colour for an index repeats one palette length later, so together with `NextColor`'s first period the palette is cycled round-robin for every index |
| `Cells.MakeCell` | ClassyConfetti/Classes/Confetti.swift:43-56 | every cell has birth rate 100, lifetime 10, velocity 150 ± 100, emission range π, spin π ± 4π, scale range 0.25 with scale 0.75, and y-acceleration 150. It carries the given texture and colour |
| `Cells.ConfigureFrom` | ClassyConfetti/Classes/Confetti.swift:41-60 | with the running counter starting at `start`, there is one cell per item, in order. Cell k has the fixed physics, item k's image and the colour for index start + k |
| `Cells.Configure` | ClassyConfetti/Classes/Confetti.swift:40-60 | there is one cell per content item, in order. Cell k has the fixed physics, item k's image and the colour `colors[k % colors.count]`. The precondition rules out only the case that would take a colour from an empty palette |
| `Cells.ConfigureFromIgnoresPosition` | ClassyConfetti/Classes/Confetti.swift:40-60 | no cell depends on the anchor position passed to the configuration |
| `Cells.PaletteCovered` | ClassyConfetti/Classes/Confetti.swift:42-64 | when there are at least as many items as colours, every palette colour is used by some cell |
| `Cells.CellColorsFromPalette` | ClassyConfetti/Classes/Confetti.swift:55-64 | every cell's colour is a palette colour |
| `Emitter.Init` | ClassyConfetti/Classes/Confetti.swift:18-26 | a missing palette becomes exactly [red, orange, yellow, green], and a missing content list becomes exactly [circle 5×5, square 5×5, triangle 5×5]. A list that is given, even an empty one, is stored unchanged |
| `Emitter.InitRoundTrip` | ClassyConfetti/Classes/Confetti.swift:18-24 | rebuilding an effect from its stored palette and content gives the same effect back |
| `Emitter.PaletteDecidesConfigurable` | ClassyConfetti/Classes/Confetti.swift:19-64 | with the default palette, configuration is always defined. With an explicitly empty palette, it is defined if and only if the content list is explicitly empty |
| `Emitter.BirthRateAnimation` | ClassyConfetti/Classes/Confetti.swift:67-74 | the ramp lasts the given duration, starts at 2 and decreases to 0 |
| `Emitter.Emit` | ClassyConfetti/Classes/Confetti.swift:30-38 | afterwards the layer has birth rate 0, the anchor's point, one configured cell per item (colour k mod palette length), the view's bounds as frame, `now` as begin time, and attachment to the view. The ramp is stored under "birthRate". Palette, content and animations under other keys are unchanged |
| `Emitter.EmitSelfTerminates` | ClassyConfetti/Classes/Confetti.swift:30-74 | the ramp starts every cell at 200 particles per second and ends at the layer's own birth rate 0. After the ramp, no cell spawns particles |
| `Emitter.EmitIdempotent` | ClassyConfetti/Classes/Confetti.swift:30-38 | emitting a second time with the same arguments leaves the effect unchanged |
| `Emitter.EmitFromFreshHasOneAnimation` | ClassyConfetti/Classes/Confetti.swift:67-74 | a freshly built effect has exactly one animation after emitting, the birth-rate ramp |
| `Emitter.EmitInsideFrame` | ClassyConfetti/Classes/Confetti.swift:30-34 | for view bounds at the origin with a non-negative size, the emitter lies inside its own frame |
| `Emitter.EmitDefaultDuration` | ClassyConfetti/Classes/Confetti.swift:30 | without a duration, the ramp lasts 1 |
| `Emitter.EmitBlueCircleAtCenter` | ClassyConfetti/Classes/Confetti.swift:18-74 | the worked example: one blue 10×10 circle emitted at the centre of a 100×200 view for 2 gives the emitter at (50, 100), one blue cell with a 10×10 circle texture, and a single ramp of length 2 |

## Left out

- Rasterization (`UIGraphicsImageRenderer`, the white fill, `fillPath`) belongs to the host's rendering library. An image is a token recording its canvas and outline.
- The particle simulation and the animation's interpolation and easing belong to the host compositor. The animation is only its parameter record, and the spawn rate is given only at the ramp's two ends.
- The view hierarchy: `addSublayer` is the flag `attached`, and the view is its bounds rectangle.
- `CACurrentMediaTime()` is host I/O. Its reading is the parameter `now`.
- `init?(coder:)` is an unsupported deserialization stub that only calls `fatalError`.
- Colour conversion to the host's colour type is left out. Colours are opaque tokens.
- The conversion of a cell's image to the host's bitmap type (`.cgImage`, line 54) is left out. A cell stores the image token itself. A supplied image that has no bitmap backing would give the cell no texture in the program, and the model does not represent that case.
- Floating point is left out. Coordinates, rates and durations are `real`, π is a named constant, and the single-precision cell fields are not rounded.
- The counter `i` in `configure` is a Swift `Int`. It cannot overflow for any list that fits in memory, so it is an unbounded `nat`.
- The animation has no key path of its own; only the key "birthRate" under which it is added is modelled.
