/** The four vital bars: a right-to-left scan of a one-row band for the bar's colour,
    turned into a floored percentage of the band's width. */
module VitalScanner {
  import opened Screen

  const HpColor: Color := "0000FF"
  const MpColor: Color := "FFFF00"

  /** The strip holding the bars: 203 by 51 pixels at the window's top-right corner. */
  function VitalsRegion(res: Size): (r: Rect)
    ensures r.right == res.width && r.right - r.left == 203 && r.top == 0 && r.bottom == 51
  {
    Rect(res.width - 203, 0, res.width, 51)
  }

  /** The four bands, each a single row, relative to the captured strip. */
  datatype Bands = Bands(selfHp: Rect, selfMp: Rect, targetHp: Rect, targetMp: Rect)

  predicate IsBand(band: Rect)
  {
    band.top == band.bottom && band.left < band.right
  }

  /** The bands, placed from the strip's width: the self bars end 4 pixels from its right
      edge, the target bars start 2 pixels from its left edge. */
  function BandsOf(capture: Rect): (b: Bands)
    ensures IsBand(b.selfHp) && IsBand(b.selfMp) && IsBand(b.targetHp) && IsBand(b.targetMp)
    ensures b.selfHp.right - b.selfHp.left == 77 && b.selfMp.right - b.selfMp.left == 77
    ensures b.targetHp.right - b.targetHp.left == 62 && b.targetMp.right - b.targetMp.left == 62
  {
    var width := capture.right - capture.left;
    Bands(Rect(width - 81, 24, width - 4, 24), Rect(width - 81, 35, width - 4, 35),
          Rect(width - 201, 14, width - 139, 14), Rect(width - 201, 27, width - 139, 27))
  }

  /** Whatever the resolution, the bands sit at the same place in the strip, inside it. */
  lemma BandsOfStrip(res: Size)
    ensures BandsOf(VitalsRegion(res)) == Bands(Rect(122, 24, 199, 24), Rect(122, 35, 199, 35),
                                                Rect(2, 14, 64, 14), Rect(2, 27, 64, 27))
  {
  }

  /** The columns l..i of row y, scanned from i down: the first column of colour `pc`. */
  function RightmostMatch(color: (int, int) -> Color, l: int, i: int, y: int, pc: Color): (m: Option<int>)
    decreases i - l
    ensures m.Some? ==> l <= m.value <= i && color(m.value, y) == pc
                        && forall j :: m.value < j <= i ==> color(j, y) != pc
    ensures m.None? ==> forall j :: l <= j <= i ==> color(j, y) != pc
  {
    if i < l then None
    else if color(i, y) == pc then Some(i)
    else RightmostMatch(color, l, i - 1, y, pc)
  }

  /** The fill of a bar whose edge is at `column`, as a floored percentage of the band. */
  function FillPercent(l: int, r: int, column: int): (p: int)
    requires l < r && l <= column <= r
    ensures 0 <= p <= 100
    ensures column == l ==> p == 0
    ensures column == r ==> p == 100
  {
    var d := r - l;
    DivMonotone((column - l) * 100, d * 100, d);
    MultipleDiv(100, d);
    ((column - l) * 100) / d
  }

  lemma DivMonotone(a: int, b: int, d: int)
    requires 0 <= a <= b && 0 < d
    ensures 0 <= a / d <= b / d
  {
    var qa, qb := a / d, b / d;
    assert d * qa <= a < d * qa + d;
    assert d * qb <= b < d * qb + d;
    assert d * (qa + 1) > 0;
    PositiveFactor(d, qa + 1);
    assert d * (qb + 1 - qa) > 0;
    PositiveFactor(d, qb + 1 - qa);
  }

  lemma MultipleDiv(k: int, d: int)
    requires 0 < d
    ensures (d * k) / d == k
  {
    var m := d * k;
    var q, rem := m / d, m % d;
    assert m == d * q + rem && 0 <= rem < d;
    var j := k - q;
    assert d * j == rem by {
      assert d * j == d * k - d * q;
    }
    PositiveFactor(d, j + 1);
    assert d * (1 - j) == d - rem;
    PositiveFactor(d, 1 - j);
  }

  lemma PositiveFactor(d: int, k: int)
    requires d > 0 && d * k > 0
    ensures k > 0
  {
  }

  /** The farther right the bar's edge, the larger the reading. */
  lemma FillPercentMonotone(l: int, r: int, c1: int, c2: int)
    requires l < r && l <= c1 <= c2 <= r
    ensures FillPercent(l, r, c1) <= FillPercent(l, r, c2)
  {
    DivMonotone((c1 - l) * 100, (c2 - l) * 100, r - l);
  }

  /** The reading of one band: the percentage of the rightmost column of the bar's colour,
      or 0 when there is none. The scan keeps (-1, -1) for "nothing found", so a hit on
      column -1 or row -1 also reads 0. */
  function ColorLinePercent(color: (int, int) -> Color, rect: Rect, y: int, pc: Color): (p: int)
    requires rect.left < rect.right
    ensures 0 <= p <= 100
    ensures p != 0 ==> RightmostMatch(color, rect.left, rect.right, y, pc).Some?
  {
    match RightmostMatch(color, rect.left, rect.right, y, pc)
    case None => 0
    case Some(column) => if column == -1 || y == -1 then 0 else FillPercent(rect.left, rect.right, column)
  }

  /** The colour samples of one band's scan: from the right end down to the first column of
      colour `pc`, or down to the left end when there is none. */
  function ScanProbes(color: (int, int) -> Color, rect: Rect, y: int, pc: Color): (probes: seq<ScreenOp>)
    requires rect.left < rect.right
    ensures 1 <= |probes| <= rect.right - rect.left + 1
    ensures forall k :: 0 <= k < |probes| ==> probes[k] == PixelColor(rect.right - k, y)
  {
    var n := match RightmostMatch(color, rect.left, rect.right, y, pc)
             case None => rect.right - rect.left + 1
             case Some(column) => rect.right - column + 1;
    seq(n, k => PixelColor(rect.right - k, y))
  }

  /** The scan of one band, right to left, stopping at the first pixel of colour `pc`. */
  method FindColorLine(color: (int, int) -> Color, rect: Rect, y: int, pc: Color)
    returns (percent: int, probes: seq<ScreenOp>)
    requires rect.left < rect.right
    ensures percent == ColorLinePercent(color, rect, y, pc)
    ensures probes == ScanProbes(color, rect, y, pc)
    // the columns sampled: from the right end down to the first hit, or to the left end
    ensures forall k :: 0 <= k < |probes| ==> probes[k] == PixelColor(rect.right - k, y)
    ensures |probes| == match RightmostMatch(color, rect.left, rect.right, y, pc)
                        case None => rect.right - rect.left + 1
                        case Some(column) => rect.right - column + 1
  {
    var ret := NoPoint;
    probes := [];
    var i := rect.right;
    while i >= rect.left
      invariant rect.left - 1 <= i <= rect.right
      invariant ret == NoPoint
      invariant RightmostMatch(color, rect.left, rect.right, y, pc) == RightmostMatch(color, rect.left, i, y, pc)
      invariant |probes| == rect.right - i
      invariant forall k :: 0 <= k < |probes| ==> probes[k] == PixelColor(rect.right - k, y)
      decreases i - rect.left
    {
      probes := probes + [PixelColor(i, y)];
      if color(i, y) == pc {
        ret := Point(i, y);
        break;
      }
      i := i - 1;
    }
    if ret.x == -1 || ret.y == -1 {
      return 0, probes;
    }
    percent := FillPercent(rect.left, rect.right, ret.x);
  }

  /** The four readings: self HP, self MP, target HP, target MP. */
  datatype Vitals = Vitals(hp: int, mp: int, php: int, pmp: int)

  /** The colours of the posterised capture of `capture`. */
  function CapturedColors(e: Engine, capture: Rect): (int, int) -> Color
  {
    (x: int, y: int) => e.pixel(capture, x, y)
  }

  /** The readings the bars show in the window of resolution `res`. */
  function VitalsOf(e: Engine, res: Size): (v: Vitals)
    ensures 0 <= v.hp <= 100 && 0 <= v.mp <= 100 && 0 <= v.php <= 100 && 0 <= v.pmp <= 100
  {
    var capture := VitalsRegion(res);
    var color := CapturedColors(e, capture);
    var b := BandsOf(capture);
    Vitals(ColorLinePercent(color, b.selfHp, b.selfHp.top, HpColor),
           ColorLinePercent(color, b.selfMp, b.selfMp.top, MpColor),
           ColorLinePercent(color, b.targetHp, b.targetHp.top, HpColor),
           ColorLinePercent(color, b.targetMp, b.targetMp.top, MpColor))
  }

  /** The engine operations of the vitals stage: the capture of the strip, then the samples
      of the self HP, self MP, target HP and target MP bands, in that order. */
  function VitalsTrace(e: Engine, res: Size): (ops: seq<ScreenOp>)
    ensures |ops| > 1 && ops[0] == CaptureVitals(VitalsRegion(res))
    ensures forall k :: 1 <= k < |ops| ==> ops[k].PixelColor?
    ensures forall op <- ops :: op.CaptureVitals? || op.PixelColor?
  {
    var capture := VitalsRegion(res);
    var color := CapturedColors(e, capture);
    var b := BandsOf(capture);
    [CaptureVitals(capture)]
      + ScanProbes(color, b.selfHp, b.selfHp.top, HpColor)
      + ScanProbes(color, b.selfMp, b.selfMp.top, MpColor)
      + ScanProbes(color, b.targetHp, b.targetHp.top, HpColor)
      + ScanProbes(color, b.targetMp, b.targetMp.top, MpColor)
  }

  /** The vitals stage: capture the strip, then scan the four bands in order. */
  method ScanVitals(e: Engine, res: Size) returns (v: Vitals, ops: seq<ScreenOp>)
    ensures v == VitalsOf(e, res)
    ensures 0 <= v.hp <= 100 && 0 <= v.mp <= 100 && 0 <= v.php <= 100 && 0 <= v.pmp <= 100
    // the strip is captured first, and every later operation samples a colour in it
    ensures ops == VitalsTrace(e, res)
    ensures |ops| > 1 && ops[0] == CaptureVitals(VitalsRegion(res))
    ensures forall k :: 1 <= k < |ops| ==> ops[k].PixelColor?
  {
    var cutRect := VitalsRegion(res);
    ops := [CaptureVitals(cutRect)];
    var color := CapturedColors(e, cutRect);
    var b := BandsOf(cutRect);
    var hp, p1 := FindColorLine(color, b.selfHp, b.selfHp.top, HpColor);
    var mp, p2 := FindColorLine(color, b.selfMp, b.selfMp.top, MpColor);
    var php, p3 := FindColorLine(color, b.targetHp, b.targetHp.top, HpColor);
    var pmp, p4 := FindColorLine(color, b.targetMp, b.targetMp.top, MpColor);
    v := Vitals(hp, mp, php, pmp);
    ops := ops + p1 + p2 + p3 + p4;
  }
}
