/** Whether the player is in an automatic battle: a template match of the battle
    indicator, with a text match of the battle label as the fallback. */
module BattleDetector {
  import opened Screen

  /** The engine's answer when a match finds nothing. */
  const NotFound := "-1,-1"

  /** A match answer counts when it is non-empty and not the "nothing found" answer. */
  predicate IsHit(answer: string): (hit: bool)
    // the empty answer and "-1,-1" are the only misses
    ensures hit <==> answer !in {"", NotFound}
  {
    answer != "" && answer != NotFound
  }

  /** The searched region: the lower half of a 200-pixel strip along the right edge. */
  function BattleRegion(res: Size): (r: Rect)
    ensures r.right == res.width && r.right - r.left == 200
    ensures r.bottom == res.height && r.top == res.height / 2
  {
    Rect(res.width - 200, res.height / 2, res.width, res.height)
  }

  /** The decision from the two answers; the image match has priority. */
  function BattleDetected(image: string, text: string): (inBattle: bool)
    ensures IsHit(image) ==> inBattle
    ensures !IsHit(image) ==> (inBattle <==> IsHit(text))
  {
    if IsHit(image) then true else IsHit(text)
  }

  /** The engine operations of the battle check: the image match, then the text fallback
      only when the image match misses. */
  function BattleTrace(e: Engine, res: Size): (ops: seq<ScreenOp>)
    ensures |ops| >= 1 && ops[0] == FindImage(BattleRegion(res))
    ensures FindBattleLabel(BattleRegion(res)) in ops <==> !IsHit(e.image(BattleRegion(res)))
    ensures forall op <- ops :: op.FindImage? || op.FindBattleLabel?
  {
    var region := BattleRegion(res);
    [FindImage(region)] + if IsHit(e.image(region)) then [] else [FindBattleLabel(region)]
  }

  /** The battle check: the text fallback runs only when the image match misses. */
  method DetectBattle(e: Engine, res: Size) returns (inBattle: bool, ops: seq<ScreenOp>)
    ensures var region := BattleRegion(res);
      inBattle == BattleDetected(e.image(region), e.battleLabel(region))
    ensures ops == BattleTrace(e, res)
  {
    var region := BattleRegion(res);
    var r1 := e.image(region);
    ops := [FindImage(region)];
    if IsHit(r1) {
      return true, ops;
    }
    ops := ops + [FindBattleLabel(region)];
    var r2 := e.battleLabel(region);
    inBattle := IsHit(r2);
  }

  /** When the image matches, the label answer cannot change the decision. */
  lemma ImageHitOverridesLabel(image: string, text1: string, text2: string)
    requires IsHit(image)
    ensures BattleDetected(image, text1) == BattleDetected(image, text2) == true
  {
  }
}
