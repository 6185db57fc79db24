# Game-screen analysis, modelled in Dafny

This project models `screenAnalysis`, the routine that looks at the running game client
through a screen-automation engine and builds a game-state snapshot. The snapshot says
whether the game window was found, whether the player is in an automatic battle, the window's
box and resolution, the click points of the four vital bars, the self and target HP/MP
readings, and how many automatic rounds are left, with the point that adds more.

The engine is an oracle (`Screen.Engine`). Each field is the answer to one kind of engine
request: the window and child enumerations, the box read after linking to a window, the two
battle matches, the round glyph, the OCR of the round count, and the pixel colours of the
captured vital strip. Everything else is the decision logic and integer geometry of the
source. Each stage method also returns the list of engine operations it issued on the linked
window (`ScreenOp`). This list is what lets the model state which stages run:
- the label search runs only when the battle image is missed;
- the vital bars are sampled only out of battle;
- nothing at all is captured when no window is resolved or its box is invalid.

Modules follow the stages of the analysis:
- `Screen` holds the values and the engine;
- `WindowResolver` picks the window by fixed positions in the enumerations;
- `Geometry` validates the box and derives the resolution and the bar buttons;
- `BattleDetector` makes the battle decision;
- `RoundCounter` reads the round counter;
- `VitalScanner` holds `findColorLine` and the four bands;
- `StateAggregator` holds `screenAnalysis` itself, filling the snapshot step by step.

Two behaviours of the code are kept as they are:
- Each enumeration answer is split on `|` and converted with `Number`, so an empty answer
  becomes the single handle 0. An empty top-level enumeration therefore still resolves
  nothing, since one handle fails the test at line 67. An empty child enumeration is split
  into the single handle 0, which line 72 returns, so the analysis links to handle 0
  (`WindowResolver.EmptyChildListResolvesToHandleZero`).
- When the round glyph is found, the count is whatever `Number` makes of the OCR text
  (line 156). A non-numeric text gives NaN, and the button is still reported (line 157).
  The model keeps the NaN (`Screen.Number`).

The readings use integer floor division, `((column - left) * 100) / (right - left)`. The
source divides in floating point and then floors. For the two band widths used, 77 and 62,
the two agree. The exact quotient is an integer only when the column is at either end of the
band, or in the middle of the 62-wide band. In those cases the floating-point quotient is
exact (1.0, 0.5, 0). Otherwise the exact value is at least 1/77 away from an integer, far
more than any rounding error.

## Model

| member | source | states |
|---|---|---|
| `WindowResolver.Handles` | src/main/com/multi-follow/turing.ts:64-70 | a split enumeration answer always holds at least one handle; a non-empty answer is kept as it is, an empty one becomes handle 0 |
| `WindowResolver.ResolveWindow` | src/main/com/multi-follow/turing.ts:62-84 | a window is found only under a second top-level match; it is found exactly when every enumeration on the chosen path succeeds (and, with several children, a third child exists); a single child list is returned as it is; with several children the answer is the enumeration under the third child |
| `WindowResolver.AtMostOneTopLevelMatch` | src/main/com/multi-follow/turing.ts:64-80 | zero or one top-level match resolves no window |
| `WindowResolver.EmptyChildListResolvesToHandleZero` | src/main/com/multi-follow/turing.ts:68-73 | an empty child enumeration under the second top-level match resolves to handle 0 |
| `Geometry.HasNegative` | src/main/com/multi-follow/turing.ts:97-101 | a box fails the sign test exactly when some component is negative; it passes exactly when all four are at least zero |
| `Geometry.ResolutionOf` | src/main/com/multi-follow/turing.ts:107-110 | the resolution is the extent that carries the box's top-left corner onto its bottom-right corner |
| `Geometry.BarButtonsFor` | src/main/com/multi-follow/turing.ts:112-115 | the self HP/MP buttons share the column 40 pixels in from the right edge (rows 23 and 40); the target ones share the column 120 pixels further left (rows 17 and 30) |
| `Geometry.GeometryIgnoresWindowPosition` | src/main/com/multi-follow/turing.ts:107-115 | moving the window changes neither the resolution nor the buttons |
| `Geometry.ExampleWindowAt100` | src/main/com/multi-follow/turing.ts:97-115 | box (100,100,1124,868) is valid, has resolution 1024x768 and buttons (984,23), (984,40), (864,17), (864,30) |
| `BattleDetector.IsHit` | src/main/com/multi-follow/turing.ts:120-139 | a match answer is a hit exactly when it is neither empty nor the "nothing found" answer "-1,-1" |
| `BattleDetector.BattleRegion` | src/main/com/multi-follow/turing.ts:122-127 | the searched region is the lower half of a 200-pixel strip along the right edge |
| `BattleDetector.BattleDetected` | src/main/com/multi-follow/turing.ts:120-139 | an image hit (non-empty, not "-1,-1") means in battle; otherwise in battle exactly when the label answer is a hit |
| `BattleDetector.BattleTrace` | src/main/com/multi-follow/turing.ts:128-138 | the battle check first issues the image match over the region; the label search is among its operations exactly when the image misses, and nothing else is issued |
| `BattleDetector.DetectBattle` | src/main/com/multi-follow/turing.ts:117-141 | the decision is `BattleDetected` of the two answers over the region; the operations issued are exactly `BattleTrace` |
| `BattleDetector.ImageHitOverridesLabel` | src/main/com/multi-follow/turing.ts:128-131 | after an image hit, no label answer can change the decision |
| `RoundCounter.GlyphFound` | src/main/com/multi-follow/turing.ts:150-152 | the glyph counts as found exactly when there is an answer and neither of its coordinates is -1 |
| `RoundCounter.WholeWindow` | src/main/com/multi-follow/turing.ts:144 | the glyph is searched over the whole window, from (0,0) to the resolution |
| `RoundCounter.CountCrop` | src/main/com/multi-follow/turing.ts:153 | the number is read in a 70x30 box ending 30 pixels above the glyph and 25 pixels to its right |
| `RoundCounter.AddRoundsButton` | src/main/com/multi-follow/turing.ts:157 | the button is 4 pixels right of and 10 pixels below the glyph |
| `RoundCounter.ExampleGlyphAt500x300` | src/main/com/multi-follow/turing.ts:151-157 | glyph (500,300) gives crop (455,240,525,270) and button (504,310) |
| `RoundCounter.RoundTrace` | src/main/com/multi-follow/turing.ts:144-157 | the round counter first searches the whole window for the glyph, then reads the crop above the glyph only when it is found, and issues nothing else |
| `RoundCounter.NoRoundsIsFallback` | src/main/com/multi-follow/turing.ts:161-164 | the fallback reading is a zero count with the point (-1,-1), and that point is itself not a found glyph |
| `RoundCounter.ReadRoundCounter` | src/main/com/multi-follow/turing.ts:143-167 | a found glyph (non-empty, neither coordinate -1) gives the OCR of its crop and its button; otherwise 0 and (-1,-1); the operations issued are exactly `RoundTrace` |
| `VitalScanner.VitalsRegion` | src/main/com/multi-follow/turing.ts:178 | the captured strip is 203x51 pixels at the window's top-right corner |
| `VitalScanner.BandsOf` | src/main/com/multi-follow/turing.ts:179-196 | each band is one row with left < right; both self bands are 77 pixels wide, both target bands 62 |
| `VitalScanner.BandsOfStrip` | src/main/com/multi-follow/turing.ts:178-196 | for every resolution the bands are x 122..199 at rows 24 and 35, and x 2..64 at rows 14 and 27 |
| `VitalScanner.RightmostMatch` | src/main/com/multi-follow/turing.ts:203-210 | the scan from the right returns a column of the colour with none of the colour to its right, or none when no column in the band has the colour |
| `VitalScanner.FillPercent` | src/main/com/multi-follow/turing.ts:212 | the percentage is in [0,100]; an edge at the band's left end reads 0, at its right end 100 |
| `VitalScanner.FillPercentMonotone` | src/main/com/multi-follow/turing.ts:212 | the reading never decreases as the edge moves right |
| `VitalScanner.ColorLinePercent` | src/main/com/multi-follow/turing.ts:201-213 | a band's reading is in [0,100] and is non-zero only when some column has the colour |
| `VitalScanner.ScanProbes` | src/main/com/multi-follow/turing.ts:203-209 | a band's scan samples between one column and the whole band, column by column from the right end leftwards |
| `VitalScanner.FindColorLine` | src/main/com/multi-follow/turing.ts:201-213 | the loop returns `ColorLinePercent`; its samples are exactly `ScanProbes`: right to left from the right end, stopping at the first hit or after the left end |
| `VitalScanner.VitalsOf` | src/main/com/multi-follow/turing.ts:170-219 | the four readings are each in [0,100] |
| `VitalScanner.VitalsTrace` | src/main/com/multi-follow/turing.ts:198-218 | the vitals stage captures the strip first; every later operation samples a colour (self HP, self MP, target HP, target MP bands in turn) |
| `VitalScanner.ScanVitals` | src/main/com/multi-follow/turing.ts:171-224 | the readings are `VitalsOf`; the operations issued are exactly `VitalsTrace` |
| `StateAggregator.InitialDefaults` | src/main/com/multi-follow/turing.ts:44-59 | the snapshot starts with `notfind` and `inBattle` false, box (0,0,0,0), resolution (0,0), hp, mp, php and pmp 0 with their buttons at (-1,-1), a round count of 0, and the add-rounds button at (-1,-1) |
| `StateAggregator.BoxRead` | src/main/com/multi-follow/turing.ts:90-95 | the box is that of the first resolved window, or all zeros when none is resolved |
| `StateAggregator.WindowFound` | src/main/com/multi-follow/turing.ts:97-104 | the window counts as found exactly when one is resolved and its box has no negative component; when none is resolved the default box passes the sign test, so the length test alone rejects it |
| `StateAggregator.ScreenAnalysis` | src/main/com/multi-follow/turing.ts:42-229 | not found exactly when no window resolves or its box has a negative component; then every field but the flag and the box keeps its default and nothing beyond the measurement is issued; otherwise every field and the exact, ordered list of later operations are as `StagesDone` says (battle check, then round counter, then vitals only out of battle); in battle or not found, vitals are 0 and no colour is sampled |
| `StateAggregator.AnalyseValidWindow` | src/main/com/multi-follow/turing.ts:105-225 | for a valid box: geometry from the box, the battle decision, the round reading, vitals only out of battle; the operations are exactly `BattleTrace` + `RoundTrace` + (`VitalsTrace` only out of battle), in that order |
| `StateAggregator.LabelSearchedExactlyOnImageMiss` | src/main/com/multi-follow/turing.ts:128-139 | in the whole stage trace, the battle label is searched exactly when the image match misses |
| `StateAggregator.NoGameWindow` | src/main/com/multi-follow/turing.ts:44-104 | an empty top-level enumeration gives the default snapshot with the not-found flag, and no engine operation on any window |
| `StateAggregator.GameWindowAt100` | src/main/com/multi-follow/turing.ts:62-115 | a single child of the second top-level match with box (100,100,1124,868) gives resolution 1024x768 and the four buttons at their offsets |
| `StateAggregator.BattleByImage` | src/main/com/multi-follow/turing.ts:117-225 | an image hit puts the player in battle; the label is never searched, and no vital bar is captured or sampled |

## Left out

- Locating the library directory, the DLL and the recognition libraries, and starting the
  engine process (`createTuringProxy`, lines 8-40): set-up with no decision logic.
- The asynchronous bridge to the engine process (`tp.exec` and the `await`s): each bridged
  body is an ordinary call, and each engine request is an oracle field of `Screen.Engine`.
- What the engine does inside: template matching, colour masks, character segmentation, text
  recognition and posterisation. Only their answers enter the model.
- Exceptions outside the window search: linking, reading the box and the recognition calls are
  not inside a `try` in the source, so a failure there rejects the whole analysis. The model's
  oracles always answer.
- The text behind the answers: the box is taken to be four integers. The round glyph's answer
  is taken to be empty or two integers. The handles are taken to be integers. `Number` applied
  to other text (NaN, fractions, infinities) is not modelled. For the OCR count only NaN is
  kept: a fractional or infinite count is not modelled.
- `WindowResolver.ResolveWindow`: with exactly two children, the source passes `child[2]`,
  which is `undefined`, to the engine. The model treats that call as failed and resolves no
  window.
- `BattleDetector.BattleRegion`: the source halves the height in floating point, so an odd
  height gives a fractional coordinate. The model halves with integer division. The region
  is only passed to the engine.
- `VitalScanner.FindColorLine`: requires a band whose right end is past its left end. For a
  one-column band the source reports NaN (0/0) when that column has the colour and 0 otherwise.
  A band whose right end is left of its left end samples nothing and reports 0. All four bands
  used are 77 and 62 pixels wide.
- `VitalScanner.FillPercent`: integer floor division in place of floating-point division
  followed by floor. For the widths used these agree, as argued above.
- Logging the snapshot (line 228) and the `test` entry point (lines 231-238).
