/**
 * The D-pad (hat) readings of the gamepad and their text labels.
 *
 * A hat reading is the tuple `(h, v)` returned by the joystick's hat query:
 * `h` is the horizontal deflection (-1 left, 1 right) and `v` the vertical
 * deflection (-1 down, 1 up). The program compares whole tuples against
 * literals, so any pair of integers is a possible argument; only the nine
 * pairs over {-1, 0, 1} are ever produced by the device.
 */
module DPad {

  /** A hat reading `(horizontal, vertical)`. */
  type Hat = (int, int)

  /** The label given to every reading that is not one of the eight directions. */
  const NotPressed: string := "DPad Not Pressed"

  /** One component of a well-formed reading. */
  predicate IsDeflection(x: int) {
    -1 <= x <= 1
  }

  /** A reading the device can produce: both components in {-1, 0, 1}. */
  predicate IsReading(hat: Hat) {
    IsDeflection(hat.0) && IsDeflection(hat.1)
  }

  /** One of the eight pressed directions: a reading other than the neutral (0, 0). */
  predicate IsDirection(hat: Hat) {
    IsReading(hat) && hat != (0, 0)
  }

  /** The vertical word of a label. */
  function VerticalWord(v: int): string {
    if v == 1 then "Up" else if v == -1 then "Down" else ""
  }

  /** The horizontal word of a label. */
  function HorizontalWord(h: int): string {
    if h == 1 then "Right" else if h == -1 then "Left" else ""
  }

  /**
   * Reference naming scheme for a pressed direction: the prefix "DPad ",
   * then the vertical word, then the horizontal word, joined by a hyphen
   * when both are present (so a diagonal reads "Up-Left", never "Left-Up").
   */
  function ComposedLabel(hat: Hat): string {
    var sep := if hat.0 != 0 && hat.1 != 0 then "-" else "";
    "DPad " + VerticalWord(hat.1) + sep + HorizontalWord(hat.0)
  }

  /**
   * The classifier `get_dpad_status`: an if/elif chain over the eight
   * direction tuples, with every other tuple falling to the final else.
   */
  function DpadStatus(hat: Hat): (r: string)
    ensures r == NotPressed <==> !IsDirection(hat)
    ensures IsDirection(hat) ==> r == ComposedLabel(hat)
  {
    if hat == (0, 1) then "DPad Up"
    else if hat == (0, -1) then "DPad Down"
    else if hat == (-1, 0) then "DPad Left"
    else if hat == (1, 0) then "DPad Right"
    else if hat == (1, 1) then "DPad Up-Right"
    else if hat == (-1, 1) then "DPad Up-Left"
    else if hat == (1, -1) then "DPad Down-Right"
    else if hat == (-1, -1) then "DPad Down-Left"
    else NotPressed
  }

  /** Reading the label back gives the reading: the eight labels are pairwise distinct. */
  lemma LabelsDistinct(a: Hat, b: Hat)
    requires IsDirection(a) && IsDirection(b)
    requires DpadStatus(a) == DpadStatus(b)
    ensures a == b
  {
  }
}
