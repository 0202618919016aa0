/**
 * The sun button's drag-to-adjust master volume (main.js:128, main.js:142-148).
 * Positions and gains are exact reals rather than IEEE doubles.
 */
module Volume {

  /** Gain change per pixel of vertical drag. */
  const DragSensitivity: real := 0.003

  function Dist(x: real, y: real): real {
    if x < y then y - x else x - y
  }

  /**
   * The new master gain while dragging: dragging up (a smaller clientY)
   * raises the gain from the value it had when the drag started, and the
   * result is clamped to [0, 1].
   */
  function DragGain(startGain: real, startY: real, clientY: real): (g: real)
    ensures 0.0 <= g <= 1.0
    ensures var raw := startGain - (clientY - startY) * DragSensitivity;
      0.0 <= raw <= 1.0 ==> g == raw
  {
    var dy := clientY - startY;
    var raw := startGain - dy * DragSensitivity;
    var floored := if raw < 0.0 then 0.0 else raw;
    if floored > 1.0 then 1.0 else floored
  }

  /** The dragged gain is the point of [0, 1] nearest to the unclamped value. */
  lemma DragGainIsNearest(startGain: real, startY: real, clientY: real, x: real)
    requires 0.0 <= x <= 1.0
    ensures var raw := startGain - (clientY - startY) * DragSensitivity;
      Dist(DragGain(startGain, startY, clientY), raw) <= Dist(x, raw)
  {
  }

  /** Dragging further down never raises the gain. */
  lemma DragGainMonotone(startGain: real, startY: real, y1: real, y2: real)
    requires y1 <= y2
    ensures DragGain(startGain, startY, y2) <= DragGain(startGain, startY, y1)
  {
  }
}
