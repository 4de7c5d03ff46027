/**
 * The part of the page the widget writes: the inline position of its
 * element (the `top`, `right`, `bottom` and `left` style properties), its
 * class name and the text of its time, date and status lines.
 */
module Dom {

  /** One inline edge offset: not set, `'auto'`, or a length in pixels. */
  datatype Edge = Unset | Auto | Px(n: int)

  datatype Side = Top | Right | Bottom | Left

  datatype Style = Style(top: Edge, right: Edge, bottom: Edge, left: Edge)
  {
    function Get(side: Side): Edge
    {
      match side
      case Top => top
      case Right => right
      case Bottom => bottom
      case Left => left
    }
  }

  /** A freshly created element has no inline offsets. */
  const NoOffsets := Style(Unset, Unset, Unset, Unset)

  /** An object of style properties, as handed to `Object.assign`. */
  type Patch = map<Side, Edge>

  /** `Object.assign(style, patch)`: the sides the patch names take its values, the others stay. */
  function Assign(style: Style, patch: Patch): (r: Style)
    ensures forall side :: r.Get(side) == if side in patch then patch[side] else style.Get(side)
  {
    Style(
      if Top in patch then patch[Top] else style.top,
      if Right in patch then patch[Right] else style.right,
      if Bottom in patch then patch[Bottom] else style.bottom,
      if Left in patch then patch[Left] else style.left)
  }

  /** A patch that names all four sides replaces the whole placement, whatever it was. */
  lemma FullPatchOverrides(a: Style, b: Style, patch: Patch)
    requires patch.Keys == {Top, Right, Bottom, Left}
    ensures Assign(a, patch) == Assign(b, patch)
  {
  }

  /** What the status line shows. */
  datatype StatusLine = Blank | Syncing | Synced | SyncError
  {
    function Text(): string
    {
      match this
      case Blank => ""
      case Syncing => "Synchronisation..."
      case Synced => "Synchronisé"
      case SyncError => "Erreur de synchronisation"
    }
  }

  /** The widget's element. */
  class Element {
    var className: string
    var style: Style
    var timeText: string
    var dateText: string
    var status: StatusLine

    constructor (className: string, style: Style, timeText: string, dateText: string, status: StatusLine)
      ensures this.className == className && this.style == style
      ensures this.timeText == timeText && this.dateText == dateText && this.status == status
    {
      this.className := className;
      this.style := style;
      this.timeText := timeText;
      this.dateText := dateText;
      this.status := status;
    }

    /** Writes the three text lines; the class and the placement stay. */
    method SetTexts(timeText: string, dateText: string, status: StatusLine)
      modifies this
      ensures this.timeText == timeText && this.dateText == dateText && this.status == status
      ensures className == old(className) && style == old(style)
    {
      this.timeText, this.dateText, this.status := timeText, dateText, status;
    }
  }
}
