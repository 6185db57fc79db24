/** Values exchanged with the screen-automation engine, and the engine itself,
    seen as the answers it gives during one analysis pass. */
module Screen {

  datatype Option<T> = None | Some(value: T)

  /** A window-relative point; (-1, -1) means "no actionable location". */
  datatype Point = Point(x: int, y: int)

  const NoPoint := Point(-1, -1)

  /** Width and height of a window, in pixels. */
  datatype Size = Size(width: int, height: int)

  /** A rectangle given by its left, top, right and bottom coordinates. */
  datatype Rect = Rect(left: int, top: int, right: int, bottom: int)

  /** A number obtained with `Number(text)` from recognised text: an integer, or NaN
      when the text is not numeric. */
  datatype Number = Int(value: int) | NaN

  /** A colour as the engine reports it: six hexadecimal digits, such as "0000FF". */
  type Color = string

  /** The engine operations the analysis issues on the linked game window, in order. */
  datatype ScreenOp =
    | LinkAndMeasure(handle: int)   // link the capture context to a window and read its box
    | FindImage(region: Rect)       // template match of the battle indicator
    | FindBattleLabel(region: Rect) // capture, cyan mask, segmentation, text match of the battle label
    | FindRoundGlyph(region: Rect)  // capture, blue/green mask, segmentation, text match of the round glyph
    | ReadRoundCount(crop: Rect)    // crop and OCR of the remaining-rounds number
    | CaptureVitals(region: Rect)   // capture of the vital-bar strip and posterisation
    | PixelColor(x: int, y: int)    // one colour sample inside the captured strip

  /** The automation engine, as an oracle. Each field is what one engine request answers.
      `windows` and `children` are the handles an enumeration lists (None: the call threw);
      `box` is the bounding box read after linking to a handle; `image` and `battleLabel`
      are the raw answers of the two battle matches ("-1,-1" when nothing matched);
      `roundGlyph` is the parsed position of the round glyph (None: empty answer);
      `roundCount` is the number recognised in a crop; `pixel(capture, x, y)` is the colour
      at (x, y) of the posterised capture of `capture`. */
  datatype Engine = Engine(
    windows: Option<seq<int>>,
    children: int -> Option<seq<int>>,
    box: int -> Rect,
    image: Rect -> string,
    battleLabel: Rect -> string,
    roundGlyph: Rect -> Option<Point>,
    roundCount: Rect -> Number,
    pixel: (Rect, int, int) -> Color
  )
}
