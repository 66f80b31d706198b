/** Where the mole is drawn: the pure arithmetic of `moveMole` (app/App.tsx:97-101). */
module MolePlacement {

  /** One value of the random source: a real number in [0, 1). */
  type Draw = r: real | 0.0 <= r < 1.0

  /** Offsets of the mole from the top-left corner of the window. */
  datatype Position = Position(top: real, left: real)

  /** The mole's starting position, before it has ever been moved. */
  const ORIGIN: Position := Position(0.0, 0.0)

  /** Vertical room kept free below the top offset. */
  const TOP_MARGIN: real := 200.0

  /** Horizontal room kept free right of the left offset. */
  const LEFT_MARGIN: real := 100.0

  /** The mole's drawn width and height. */
  const MOLE_SIZE: real := 140.0

  /**
   * New mole position from two draws, the top's draw taken first.
   * Each offset lies between 0 and the window extent minus its margin,
   * whichever sign that difference has: nothing rejects a window
   * smaller than the margins.
   */
  function MoveMole(topDraw: Draw, leftDraw: Draw, width: real, height: real): (p: Position)
    ensures height >= TOP_MARGIN ==> 0.0 <= p.top && (height > TOP_MARGIN ==> p.top < height - TOP_MARGIN)
    ensures height <= TOP_MARGIN ==> height - TOP_MARGIN <= p.top <= 0.0
    ensures width >= LEFT_MARGIN ==> 0.0 <= p.left && (width > LEFT_MARGIN ==> p.left < width - LEFT_MARGIN)
    ensures width <= LEFT_MARGIN ==> width - LEFT_MARGIN <= p.left <= 0.0
  {
    var top := topDraw * (height - TOP_MARGIN);
    var left := leftDraw * (width - LEFT_MARGIN);
    ScaledDrawBounds(topDraw, height - TOP_MARGIN, top);
    ScaledDrawBounds(leftDraw, width - LEFT_MARGIN, left);
    Position(top, left)
  }

  /** A draw scaled to `extent` lies between 0 (included) and `extent` (excluded unless 0). */
  lemma ScaledDrawBounds(r: Draw, extent: real, v: real)
    requires v == r * extent
    ensures extent >= 0.0 ==> 0.0 <= v && (extent > 0.0 ==> v < extent)
    ensures extent <= 0.0 ==> extent <= v <= 0.0
  {
    if extent > 0.0 {
      assert v < extent;
    } else if extent < 0.0 {
      assert extent <= v <= 0.0;
    }
  }

  /**
   * The horizontal margin is narrower than the mole: whatever the window
   * width, some left draw places the mole partly past the right edge.
   * In a window taller than 200 the mole always fits vertically (it is 140
   * high, the margin is 200).
   */
  lemma MoleCanOverhangRightEdge(topDraw: Draw, width: real, height: real)
    ensures exists leftDraw: Draw :: MoveMole(topDraw, leftDraw, width, height).left + MOLE_SIZE > width
    ensures forall leftDraw: Draw :: height > TOP_MARGIN ==>
              MoveMole(topDraw, leftDraw, width, height).top + MOLE_SIZE < height
  {
    var room := width - LEFT_MARGIN;
    var leftDraw: Draw := if width < MOLE_SIZE then 0.0 else (width - 120.0) / room;
    assert leftDraw * room == if width < MOLE_SIZE then 0.0 else width - 120.0;
    assert MoveMole(topDraw, leftDraw, width, height).left + MOLE_SIZE > width;
  }
}
