/** The confetti emitter: construction with its defaults, and `Emit`, which
    configures the emitter over a view and starts the birth-rate ramp that
    ends the burst.

    The emitter layer is a plain record and `Emit` a record-to-record update.
    The host clock, the view and the compositor are not part of the model: the
    view contributes its bounds, the clock its current reading `now`, and
    attaching to the view's layer is a flag.
 */
module Emitter {
  import opened Geometry
  import opened Contents
  import opened Anchor
  import opened Cells

  /** A value the caller may leave out. */
  datatype Option<T> = None | Some(value: T)

  /** A declarative animation of one layer property from one value to another. */
  datatype Animation = Animation(duration: real, fromValue: real, toValue: real)

  /** The key under which the birth-rate ramp is installed. */
  const BirthRateKey: string := "birthRate"

  /** The ramp length when the caller gives none. */
  const DefaultDuration: real := 1.0

  /** The emitter layer's state, as far as the effect touches it. */
  datatype Layer = Layer(
    birthRate: real,
    emitterPosition: Point,
    cells: seq<Cell>,
    frame: Rect,
    beginTime: real,
    animations: map<string, Animation>,
    attached: bool)

  /** A confetti effect: its palette, its content list and its layer. */
  datatype Confetti = Confetti(colors: seq<Color>, content: seq<Content>, layer: Layer)

  /** A layer as the host creates it: unit birth rate, nothing configured,
      not attached to any view. */
  const FreshLayer: Layer :=
    Layer(1.0, Point(0.0, 0.0), [], Rect(0.0, 0.0, 0.0, 0.0), 0.0, map[], false)

  /** The palette used when none is given. */
  const DefaultColors: seq<Color> := [Red, Orange, Yellow, Green]

  /** The content used when none is given: three 5 x 5 shapes. */
  const DefaultContent: seq<Content> :=
    [ShapeItem(Circle, 5.0, 5.0), ShapeItem(Square, 5.0, 5.0), ShapeItem(Triangle, 5.0, 5.0)]

  /** Builds an effect. A missing palette or content list is replaced by the
      default; a given one is kept exactly, even when it is empty. */
  function Init(colors: Option<seq<Color>>, content: Option<seq<Content>> := None): (r: Confetti)
    ensures colors.None? ==> r.colors == [Red, Orange, Yellow, Green]
    ensures colors.Some? ==> r.colors == colors.value
    ensures content.None? ==>
      |r.content| == 3
      && r.content[0] == ShapeItem(Circle, 5.0, 5.0)
      && r.content[1] == ShapeItem(Square, 5.0, 5.0)
      && r.content[2] == ShapeItem(Triangle, 5.0, 5.0)
    ensures content.Some? ==> r.content == content.value
    ensures r.layer == FreshLayer
  {
    Confetti(
      match colors case Some(cs) => cs case None => DefaultColors,
      match content case Some(items) => items case None => DefaultContent,
      FreshLayer)
  }

  /** Rebuilding an effect from the palette and content it stored gives the
      same effect back: defaults are substituted once, at construction. */
  lemma InitRoundTrip(colors: Option<seq<Color>>, content: Option<seq<Content>>)
    ensures var e := Init(colors, content);
      Init(Some(e.colors), Some(e.content)) == e
  {
  }

  /** With the default palette every content list can be configured; with an
      explicitly empty palette only the empty content list can. */
  lemma PaletteDecidesConfigurable(colors: Option<seq<Color>>, content: Option<seq<Content>>)
    ensures colors.None? ==> Configurable(Init(colors, content).colors, Init(colors, content).content)
    ensures colors == Some([]) ==>
      (Configurable(Init(colors, content).colors, Init(colors, content).content) <==>
       content == Some([]))
  {
  }

  /** The birth-rate ramp: from 2 down to 0 over `duration`. */
  function BirthRateAnimation(duration: real): (a: Animation)
    ensures a.duration == duration
    ensures a.fromValue == 2.0
    ensures a.fromValue > a.toValue == 0.0
  {
    Animation(duration, 2.0, 0.0)
  }

  /** Emits a burst over a view with bounds `bounds` at host time `now`: the
      layer's own birth rate is set to 0, the emitter is placed at the anchor,
      gets one cell per content item, covers the view, starts at `now`, is
      attached, and the birth-rate ramp replaces any animation under its key.
      Palette, content and every other animation are left as they were. */
  function Emit(e: Confetti, bounds: Rect, position: Position, now: real,
                duration: real := DefaultDuration): (r: Confetti)
    requires Configurable(e.colors, e.content)
    ensures r.colors == e.colors && r.content == e.content
    ensures r.layer.birthRate == 0.0
    ensures r.layer.emitterPosition == GetPoint(position, bounds)
    ensures |r.layer.cells| == |e.content|
    ensures forall k :: 0 <= k < |r.layer.cells| ==>
      && FixedPhysics(r.layer.cells[k])
      && r.layer.cells[k].contents == ContentImage(e.content[k])
      && r.layer.cells[k].color == e.colors[k % |e.colors|]
    ensures r.layer.frame == bounds && r.layer.beginTime == now && r.layer.attached
    ensures BirthRateKey in r.layer.animations
    ensures r.layer.animations[BirthRateKey] == Animation(duration, 2.0, 0.0)
    ensures forall key :: key != BirthRateKey ==>
      (key in r.layer.animations <==> key in e.layer.animations)
    ensures forall key :: key in e.layer.animations && key != BirthRateKey ==>
      r.layer.animations[key] == e.layer.animations[key]
  {
    var layer := e.layer.(
      birthRate := 0.0,
      emitterPosition := GetPoint(position, bounds),
      cells := Configure(e.colors, e.content, position),
      frame := bounds,
      beginTime := now,
      attached := true);
    var layer := layer.(animations := layer.animations[BirthRateKey := BirthRateAnimation(duration)]);
    e.(layer := layer)
  }

  /** Particles spawned per second for one cell: the layer's birth rate scales
      every cell's own rate (the host emitter's rule). */
  function SpawnRate(layerBirthRate: real, cell: Cell): real {
    layerBirthRate * cell.birthRate
  }

  /** A burst ends by itself: the ramp starts every cell at 200 particles per
      second and ends at the layer's own birth rate, which `Emit` left at 0,
      so once the ramp is over no cell spawns any more particles. */
  lemma EmitSelfTerminates(e: Confetti, bounds: Rect, position: Position, now: real, duration: real)
    requires Configurable(e.colors, e.content)
    ensures var r := Emit(e, bounds, position, now, duration);
      var ramp := r.layer.animations[BirthRateKey];
      && ramp.fromValue > ramp.toValue
      && ramp.toValue == r.layer.birthRate
      && forall k :: 0 <= k < |r.layer.cells| ==>
           SpawnRate(ramp.fromValue, r.layer.cells[k]) == 200.0
           && SpawnRate(r.layer.birthRate, r.layer.cells[k]) == 0.0
  {
  }

  /** Emitting again with the same arguments changes nothing. */
  lemma EmitIdempotent(e: Confetti, bounds: Rect, position: Position, now: real, duration: real)
    requires Configurable(e.colors, e.content)
    ensures var r := Emit(e, bounds, position, now, duration);
      Emit(r, bounds, position, now, duration) == r
  {
  }

  /** A freshly built effect ends up with exactly one animation, the
      birth-rate ramp. */
  lemma EmitFromFreshHasOneAnimation(colors: Option<seq<Color>>, content: Option<seq<Content>>,
                                     bounds: Rect, position: Position, now: real, duration: real)
    requires Configurable(Init(colors, content).colors, Init(colors, content).content)
    ensures Emit(Init(colors, content), bounds, position, now, duration).layer.animations
      == map[BirthRateKey := Animation(duration, 2.0, 0.0)]
  {
  }

  /** For bounds at the origin with a non-negative size, the emitter sits
      inside its own frame whatever the anchor. */
  lemma EmitInsideFrame(e: Confetti, bounds: Rect, position: Position, now: real, duration: real)
    requires Configurable(e.colors, e.content)
    requires bounds.AtOrigin() && bounds.width >= 0.0 && bounds.height >= 0.0
    ensures var r := Emit(e, bounds, position, now, duration);
      r.layer.frame.Contains(r.layer.emitterPosition)
  {
  }

  /** Without a duration the ramp lasts one second. */
  lemma EmitDefaultDuration(e: Confetti, bounds: Rect, position: Position, now: real)
    requires Configurable(e.colors, e.content)
    ensures Emit(e, bounds, position, now).layer.animations[BirthRateKey].duration == 1.0
  {
  }

  /** A worked burst: one blue 10 x 10 circle, emitted from the centre of a
      100 x 200 view for 2 seconds. */
  lemma EmitBlueCircleAtCenter(blue: Color, now: real)
    ensures var r := Emit(Init(Some([blue]), Some([ShapeItem(Circle, 10.0, 10.0)])),
                          Rect(0.0, 0.0, 100.0, 200.0), Center, now, 2.0);
      && r.layer.emitterPosition == Point(50.0, 100.0)
      && |r.layer.cells| == 1
      && r.layer.cells[0].color == blue
      && r.layer.cells[0].contents == Rendered(Rect(0.0, 0.0, 10.0, 10.0), Ellipse(Rect(0.0, 0.0, 10.0, 10.0)))
      && r.layer.animations == map[BirthRateKey := Animation(2.0, 2.0, 0.0)]
  {
  }
}
