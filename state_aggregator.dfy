/** One analysis pass over the game window: the snapshot is filled stage by stage, and
    a failed window search or an invalid box stops the pass before any capture. */
module StateAggregator {
  import opened Screen
  import opened WindowResolver
  import opened Geometry
  import opened BattleDetector
  import opened RoundCounter
  import opened VitalScanner

  /** The game-state snapshot, field for field as the analysis reports it. */
  datatype Snapshot = Snapshot(
    notFind: bool,
    inBattle: bool,
    size: Rect,
    resolution: Size,
    hp: int, hpButton: Point,
    mp: int, mpButton: Point,
    php: int, phpButton: Point,
    pmp: int, pmpButton: Point,
    leftAutoRounds: Number,
    addAutoRoundsButton: Point)

  /** The snapshot before any stage has run. */
  const Initial := Snapshot(false, false, Rect(0, 0, 0, 0), Size(0, 0),
                            0, NoPoint, 0, NoPoint, 0, NoPoint, 0, NoPoint,
                            Int(0), NoPoint)

  /** The defaults of the snapshot, field by field: not "not found", not in battle, an
      all-zero box and resolution, zero readings, zero rounds, and every click point at
      the "nothing found" point (-1, -1). */
  lemma InitialDefaults()
    ensures !Initial.notFind && !Initial.inBattle
    ensures Initial.size == Rect(0, 0, 0, 0) && Initial.resolution == Size(0, 0)
    ensures Initial.hp == 0 && Initial.hpButton == Point(-1, -1)
    ensures Initial.mp == 0 && Initial.mpButton == Point(-1, -1)
    ensures Initial.php == 0 && Initial.phpButton == Point(-1, -1)
    ensures Initial.pmp == 0 && Initial.pmpButton == Point(-1, -1)
    ensures Initial.leftAutoRounds == Int(0) && Initial.addAutoRoundsButton == Point(-1, -1)
  {
  }

  /** The box the analysis reads: that of the first resolved window, or all zeros. */
  function BoxRead(e: Engine): (box: Rect)
    ensures ResolveWindow(e) == [] ==> box == Initial.size
    ensures ResolveWindow(e) != [] ==> box == e.box(ResolveWindow(e)[0])
  {
    var wins := ResolveWindow(e);
    if wins == [] then Initial.size else e.box(wins[0])
  }

  /** Whether the game window is usable: resolved, with no negative box component. */
  predicate WindowFound(e: Engine): (found: bool)
    ensures found <==> ResolveWindow(e) != [] && !HasNegative(BoxRead(e))
    // the default box passes the sign test, so only the length test rejects "no window"
    ensures ResolveWindow(e) == [] ==> !HasNegative(BoxRead(e)) && !found
  {
    ResolveWindow(e) != [] && !HasNegative(e.box(ResolveWindow(e)[0]))
  }

  /** The analysis pass. `ops` lists the engine operations issued on the linked window. */
  method ScreenAnalysis(e: Engine) returns (info: Snapshot, ops: seq<ScreenOp>)
    // not found: nothing but the flag and the box read differ from the defaults
    ensures info.notFind <==> !WindowFound(e)
    ensures info.size == BoxRead(e)
    ensures info.notFind ==> info == Initial.(notFind := true, size := BoxRead(e))
    // not found: no capture, at most the measurement of the resolved window
    ensures ResolveWindow(e) == [] ==> ops == []
    ensures ResolveWindow(e) != [] ==> |ops| >= 1 && ops[0] == LinkAndMeasure(ResolveWindow(e)[0])
    ensures info.notFind ==> |ops| <= 1
    // found: every later stage, as the valid-window analysis gives it
    ensures !info.notFind ==> StagesDone(e, info, ops[1..])
    ensures forall op <- ops :: op.FindBattleLabel? ==>
      !info.notFind && op.region == BattleRegion(info.resolution) && !IsHit(e.image(op.region))
    ensures info.notFind || info.inBattle ==>
      info.hp == info.mp == info.php == info.pmp == 0
      && forall op <- ops :: !op.CaptureVitals? && !op.PixelColor?
    ensures 0 <= info.hp <= 100 && 0 <= info.mp <= 100 && 0 <= info.php <= 100 && 0 <= info.pmp <= 100
  {
    info := Initial;
    ops := [];
    var wins := ResolveWindow(e);
    if |wins| == 0 {
      info := info.(notFind := true);
    }
    if |wins| > 0 {
      ops := ops + [LinkAndMeasure(wins[0])];
      info := info.(size := e.box(wins[0]));
    }

    if HasNegative(info.size) || |wins| == 0 {
      info := info.(notFind := true);
    } else {
      var stageOps;
      info, stageOps := AnalyseValidWindow(e, info);
      ops := ops + stageOps;
    }
  }

  /** What the stages after validation leave in the snapshot and issue to the engine, in
      their fixed order: the geometry from the box; the battle decision, with the text
      fallback issued only on an image miss; the round counter, with the crop read only
      when the glyph is found; and the vitals, captured and sampled only out of battle. */
  ghost predicate StagesDone(e: Engine, info: Snapshot, ops: seq<ScreenOp>)
  {
    var res := info.resolution;
    var region := BattleRegion(res);
    var glyph := e.roundGlyph(WholeWindow(res));
    && !info.notFind
    && res == ResolutionOf(info.size)
    && BarButtonsFor(res) == BarButtons(info.hpButton, info.mpButton, info.phpButton, info.pmpButton)
    && info.inBattle == BattleDetected(e.image(region), e.battleLabel(region))
    && ops == BattleTrace(e, res) + RoundTrace(e, res) + (if info.inBattle then [] else VitalsTrace(e, res))
    && RoundReading(info.leftAutoRounds, info.addAutoRoundsButton)
         == (if GlyphFound(glyph) then RoundReading(e.roundCount(CountCrop(glyph.value)), AddRoundsButton(glyph.value))
             else NoRounds)
    && (!info.inBattle ==> Vitals(info.hp, info.mp, info.php, info.pmp) == VitalsOf(e, res))
  }

  /** In the stage trace, the battle label is searched exactly when the image match misses. */
  lemma LabelSearchedExactlyOnImageMiss(e: Engine, info: Snapshot, ops: seq<ScreenOp>)
    requires StagesDone(e, info, ops)
    ensures var region := BattleRegion(info.resolution);
      FindBattleLabel(region) in ops <==> !IsHit(e.image(region))
  {
    var res := info.resolution;
    var rest := RoundTrace(e, res) + (if info.inBattle then [] else VitalsTrace(e, res));
    assert ops == BattleTrace(e, res) + rest;
    assert FindBattleLabel(BattleRegion(res)) !in rest;
  }

  /** The stages that run once the window's box is known to be valid, continuing the
      snapshot `start` that holds the box. */
  method AnalyseValidWindow(e: Engine, start: Snapshot) returns (info: Snapshot, ops: seq<ScreenOp>)
    requires start == Initial.(size := start.size) && !HasNegative(start.size)
    ensures info.size == start.size
    ensures StagesDone(e, info, ops)
    ensures forall op <- ops :: op.FindBattleLabel? ==>
      op.region == BattleRegion(info.resolution) && !IsHit(e.image(op.region))
    ensures info.inBattle ==>
      info.hp == info.mp == info.php == info.pmp == 0
      && forall op <- ops :: !op.CaptureVitals? && !op.PixelColor?
    ensures 0 <= info.hp <= 100 && 0 <= info.mp <= 100 && 0 <= info.php <= 100 && 0 <= info.pmp <= 100
  {
    info := start;
    var resolution := ResolutionOf(info.size);
    var buttons := BarButtonsFor(resolution);
    info := info.(resolution := resolution,
                  hpButton := buttons.hp, mpButton := buttons.mp,
                  phpButton := buttons.php, pmpButton := buttons.pmp);

    var inBattle, battleOps := DetectBattle(e, info.resolution);
    info := info.(inBattle := inBattle);
    ops := battleOps;

    var rounds, roundOps := ReadRoundCounter(e, info.resolution);
    info := info.(leftAutoRounds := rounds.left, addAutoRoundsButton := rounds.button);
    ops := ops + roundOps;

    if !info.inBattle {
      var vitals, vitalOps := ScanVitals(e, info.resolution);
      assert forall op <- vitalOps :: !op.FindBattleLabel?;
      info := info.(hp := vitals.hp, mp := vitals.mp, php := vitals.php, pmp := vitals.pmp);
      ops := ops + vitalOps;
    }
  }

  /** No top-level match: the snapshot says "not found", everything else is default, and
      the engine is never asked about a window. */
  method NoGameWindow(e: Engine) returns (info: Snapshot, ops: seq<ScreenOp>)
    requires e.windows == Some([])
    ensures info == Initial.(notFind := true) && ops == []
  {
    info, ops := ScreenAnalysis(e);
  }

  /** A 1024 x 768 game window at (100, 100), found as the only child of the second
      top-level match. */
  method GameWindowAt100(e: Engine) returns (info: Snapshot, ops: seq<ScreenOp>)
    requires e.windows == Some([7, 8]) && e.children(8) == Some([9])
    requires e.box(9) == Rect(100, 100, 1124, 868)
    ensures !info.notFind && info.resolution == Size(1024, 768)
    ensures info.hpButton == Point(984, 23) && info.mpButton == Point(984, 40)
    ensures info.phpButton == Point(864, 17) && info.pmpButton == Point(864, 30)
  {
    info, ops := ScreenAnalysis(e);
    ExampleWindowAt100(e.box(9));
  }

  /** Battle recognised by the image match: the label is never searched and the vitals
      stage never runs. */
  method BattleByImage(e: Engine) returns (info: Snapshot, ops: seq<ScreenOp>)
    requires WindowFound(e)
    requires IsHit(e.image(BattleRegion(ResolutionOf(BoxRead(e)))))
    ensures info.inBattle && info.hp == info.mp == info.php == info.pmp == 0
    ensures forall op <- ops :: !op.FindBattleLabel? && !op.CaptureVitals? && !op.PixelColor?
  {
    info, ops := ScreenAnalysis(e);
  }
}
