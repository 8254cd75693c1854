/** The particle cells of one burst: one cell per content item, in order, each
    with the same fixed physics, its item's image as texture, and a colour
    taken round-robin from the palette.
 */
module Cells {
  import opened Contents
  import opened Anchor

  /** A palette colour, as an opaque token: the four named defaults or any
      other colour the caller supplies. */
  datatype Color = Red | Orange | Yellow | Green | Custom(id: nat)

  /** The circle constant at the host's double precision; the model only
      copies it into cells and never computes with its digits. */
  const Pi: real := 3.141592653589793

  /** One particle descriptor. */
  datatype Cell = Cell(
    birthRate: real,
    lifetime: real,
    velocity: real,
    velocityRange: real,
    emissionRange: real,
    spin: real,
    spinRange: real,
    scaleRange: real,
    scale: real,
    contents: Image,
    color: Color,
    yAcceleration: real)

  /** The physics every cell of every burst carries: 100 particles per
      second living 10 seconds, speed 150 +/- 100 over a half-turn spread,
      spin pi +/- 4 pi, scale 0.75 +/- 0.25 (50% to 100%), and a downward pull of 150. */
  predicate FixedPhysics(c: Cell) {
    && c.birthRate == 100.0
    && c.lifetime == 10.0
    && c.velocity == 150.0
    && c.velocityRange == 100.0
    && c.emissionRange == Pi
    && c.spin == Pi
    && c.spinRange == 4.0 * Pi
    && c.scaleRange == 0.25
    && c.scale == 0.75
    && c.yAcceleration == 150.0
  }

  /** The colour for the item at `index`: the palette is cycled through. */
  function NextColor(colors: seq<Color>, index: nat): (c: Color)
    requires |colors| > 0
    ensures c in colors
    ensures index < |colors| ==> c == colors[index]
  {
    colors[index % |colors|]
  }

  /** A multiple of a positive `n` by a non-zero factor is at least `n` away
      from zero. */
  lemma MultipleAwayFromZero(n: int, d: int)
    requires n > 0
    ensures d >= 1 ==> n * d >= n
    ensures d <= -1 ==> n * d <= -n
  {
    if d >= 1 {
      assert n * d == n + n * (d - 1);
    } else if d <= -1 {
      assert n * d == -n + n * (d + 1);
    }
  }

  /** Adding the divisor does not change the remainder. */
  lemma ModAddDivisor(i: nat, n: nat)
    requires n > 0
    ensures (i + n) % n == i % n
  {
    var q, r := i / n, i % n;
    var q2, r2 := (i + n) / n, (i + n) % n;
    assert i == n * q + r;
    assert i + n == n * q2 + r2;
    var d := q2 - q - 1;
    assert n * q2 - n * q - n == n * d;
    assert n * d == r - r2;
    MultipleAwayFromZero(n, d);
  }

  /** The palette is cycled: the colour for an index repeats one palette
      length later. With the first period fixed by `NextColor`'s contract,
      this fixes the colour for every index. */
  lemma NextColorPeriodic(colors: seq<Color>, index: nat)
    requires |colors| > 0
    ensures NextColor(colors, index + |colors|) == NextColor(colors, index)
  {
    ModAddDivisor(index, |colors|);
  }

  /** A cell with the fixed physics, the given texture and the given colour. */
  function MakeCell(contents: Image, color: Color): (c: Cell)
    ensures FixedPhysics(c) && c.contents == contents && c.color == color
  {
    var scaleRange := 0.25;
    Cell(
      birthRate := 100.0,
      lifetime := 10.0,
      velocity := 150.0,
      velocityRange := 100.0,
      emissionRange := Pi,
      spin := Pi,
      spinRange := Pi * 4.0,
      scaleRange := scaleRange,
      scale := 1.0 - scaleRange,
      contents := contents,
      color := color,
      yAcceleration := 150.0)
  }

  /** Colours are needed only when there is content: with no items the
      palette is never consulted, so an empty palette is harmless. */
  predicate Configurable(colors: seq<Color>, content: seq<Content>) {
    |content| > 0 ==> |colors| > 0
  }

  /** The cells for `content`, whose first item is item number `start` of the
      burst (the running counter of the configuration loop). */
  function ConfigureFrom(colors: seq<Color>, content: seq<Content>, position: Position, start: nat)
    : (cells: seq<Cell>)
    requires Configurable(colors, content)
    ensures |cells| == |content|
    ensures forall k :: 0 <= k < |cells| ==>
      && FixedPhysics(cells[k])
      && cells[k].contents == ContentImage(content[k])
      && cells[k].color == NextColor(colors, start + k)
    decreases |content|
  {
    if |content| == 0 then []
    else [MakeCell(ContentImage(content[0]), NextColor(colors, start))]
         + ConfigureFrom(colors, content[1..], position, start + 1)
  }

  /** The cells of one burst: cell k has the fixed physics, item k's image and
      the palette's colour k modulo the palette length. The anchor position is
      passed along but does not influence any cell. */
  function Configure(colors: seq<Color>, content: seq<Content>, position: Position): (cells: seq<Cell>)
    requires Configurable(colors, content)
    ensures |cells| == |content|
    ensures forall k :: 0 <= k < |cells| ==>
      && FixedPhysics(cells[k])
      && cells[k].contents == ContentImage(content[k])
      && cells[k].color == colors[k % |colors|]
  {
    ConfigureFrom(colors, content, position, 0)
  }

  /** No cell depends on the anchor position. */
  lemma ConfigureFromIgnoresPosition(
    colors: seq<Color>, content: seq<Content>, p: Position, q: Position, start: nat)
    requires Configurable(colors, content)
    ensures ConfigureFrom(colors, content, p, start) == ConfigureFrom(colors, content, q, start)
  {
  }

  /** As soon as there are at least as many items as colours, every palette
      colour is used by some cell. */
  lemma PaletteCovered(colors: seq<Color>, content: seq<Content>, position: Position)
    requires 0 < |colors| <= |content|
    ensures forall c :: c in colors ==>
      exists k :: 0 <= k < |content| && Configure(colors, content, position)[k].color == c
  {
    var cells := Configure(colors, content, position);
    forall c | c in colors
      ensures exists k :: 0 <= k < |content| && cells[k].color == c
    {
      var i :| 0 <= i < |colors| && colors[i] == c;
      assert i % |colors| == i;
      assert cells[i].color == c;
    }
  }

  /** Conversely, every cell's colour comes from the palette. */
  lemma CellColorsFromPalette(colors: seq<Color>, content: seq<Content>, position: Position)
    requires Configurable(colors, content)
    ensures forall k :: 0 <= k < |content| ==> Configure(colors, content, position)[k].color in colors
  {
  }
}
