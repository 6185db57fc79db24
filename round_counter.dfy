/** The number of automatic rounds left, read next to a label glyph, and the point
    that adds more rounds. */
module RoundCounter {
  import opened Screen

  /** What the round counter reports. */
  datatype RoundReading = RoundReading(left: Number, button: Point)

  /** The report when the glyph is not on screen. */
  const NoRounds := RoundReading(Int(0), NoPoint)

  /** The fallback reports a zero count and the "nothing found" point, which itself does
      not count as a found glyph. */
  lemma NoRoundsIsFallback()
    ensures NoRounds.left == Int(0) && NoRounds.button == Point(-1, -1)
    ensures !GlyphFound(Some(NoRounds.button))
  {
  }

  /** The whole window, searched for the glyph. */
  function WholeWindow(res: Size): (r: Rect)
    ensures r.left == 0 && r.top == 0 && r.right == res.width && r.bottom == res.height
  {
    Rect(0, 0, res.width, res.height)
  }

  /** The glyph counts as found when the answer is non-empty and neither coordinate is -1. */
  predicate GlyphFound(glyph: Option<Point>): (found: bool)
    // a missing answer, or -1 in either coordinate, means the glyph is not on screen
    ensures found <==> glyph.Some? && -1 !in {glyph.value.x, glyph.value.y}
  {
    glyph.Some? && glyph.value.x != -1 && glyph.value.y != -1
  }

  /** The region holding the number: 70 by 30 pixels, ending 30 pixels above the glyph
      and reaching 25 pixels to its right. */
  function CountCrop(glyph: Point): (r: Rect)
    ensures r.right - r.left == 70 && r.bottom - r.top == 30
    ensures r.right == glyph.x + 25 && r.bottom == glyph.y - 30
  {
    Rect(glyph.x - 45, glyph.y - 60, glyph.x + 25, glyph.y - 30)
  }

  /** The "add rounds" point, a fixed offset below and right of the glyph. */
  function AddRoundsButton(glyph: Point): (b: Point)
    ensures b.x - glyph.x == 4 && b.y - glyph.y == 10
  {
    Point(glyph.x + 4, glyph.y + 10)
  }

  /** The glyph at (500, 300). */
  lemma ExampleGlyphAt500x300(glyph: Point)
    requires glyph == Point(500, 300)
    ensures CountCrop(glyph) == Rect(455, 240, 525, 270)
    ensures AddRoundsButton(glyph) == Point(504, 310)
  {
  }

  /** The engine operations of the round counter: the glyph search over the whole window,
      then the reading of the crop only when the glyph is found. */
  function RoundTrace(e: Engine, res: Size): (ops: seq<ScreenOp>)
    ensures |ops| >= 1 && ops[0] == FindRoundGlyph(WholeWindow(res))
    ensures var glyph := e.roundGlyph(WholeWindow(res));
      |ops| == (if GlyphFound(glyph) then 2 else 1)
      && (GlyphFound(glyph) ==> ops[1] == ReadRoundCount(CountCrop(glyph.value)))
    ensures forall op <- ops :: op.FindRoundGlyph? || op.ReadRoundCount?
  {
    var glyph := e.roundGlyph(WholeWindow(res));
    [FindRoundGlyph(WholeWindow(res))] + if GlyphFound(glyph) then [ReadRoundCount(CountCrop(glyph.value))] else []
  }

  /** The round counter: search the whole window for the glyph; when found, read the
      number in the crop above it; otherwise report no rounds and no button. */
  method ReadRoundCounter(e: Engine, res: Size) returns (reading: RoundReading, ops: seq<ScreenOp>)
    ensures var glyph := e.roundGlyph(WholeWindow(res));
      GlyphFound(glyph) ==>
        reading == RoundReading(e.roundCount(CountCrop(glyph.value)), AddRoundsButton(glyph.value))
    ensures !GlyphFound(e.roundGlyph(WholeWindow(res))) ==> reading == NoRounds
    // the number is read only when the glyph is found, and only in the crop above it
    ensures ops == RoundTrace(e, res)
  {
    var whole := WholeWindow(res);
    ops := [FindRoundGlyph(whole)];
    var r1 := e.roundGlyph(whole);
    if r1.Some? {
      var zx, zy := r1.value.x, r1.value.y;
      if zx != -1 && zy != -1 {
        var numberRect := CountCrop(Point(zx, zy));
        ops := ops + [ReadRoundCount(numberRect)];
        return RoundReading(e.roundCount(numberRect), AddRoundsButton(Point(zx, zy))), ops;
      }
    }
    reading := NoRounds;
  }
}
