/** The fixed display parameters of the chart (js/gapminder.js:13-20). */
module Display {
  /** Largest circle radius, in pixels. */
  const RADIUS: int := 20
  /** Gap between a circle's right edge and its label. */
  const SPACING: int := 3
  /** Height of the display zone. */
  const HEIGHT: int := 400
  /** Margin between the axes and the first mark. */
  const INNER_MARGIN: int := 30
  /** Margin between an axis and the outside of the display zone. */
  const OUTER_MARGIN: int := 30
  const MARGIN: int := INNER_MARGIN + OUTER_MARGIN
  /** Transition duration of every render after the first one, in milliseconds. */
  const ANIMATED_DURATION: nat := 250
}
