/**
 * The content script's `WorldClock`: it loads the settings, builds the
 * widget's element anchored to a corner, refreshes the displayed time on
 * every tick and applies `updateSettings` messages in place.
 */
module ContentScript {
  import opened Optional
  import opened TimeFormat
  import opened Settings
  import opened Dom
  import opened Drag

  const BaseClass := "world-clock-container"

  /** The keys `initialize` asks storage for. */
  const StoredKeys := {Theme, Format24h, Position}

  /**
   * The `positions` table: each corner sets its two edges to 10px and
   * releases the other two; any other name finds nothing.
   */
  function CornerAnchor(name: string): (r: Option<Patch>)
    ensures r.Some? <==> name in {"top-left", "top-right", "bottom-left", "bottom-right"}
    ensures r.Some? ==> r.value.Keys == {Top, Right, Bottom, Left}
    ensures r.Some? ==> r.value[Top] in {Px(10), Auto} && r.value[Bottom] in {Px(10), Auto}
    ensures r.Some? ==> r.value[Left] in {Px(10), Auto} && r.value[Right] in {Px(10), Auto}
    ensures r.Some? ==> (r.value[Top] == Px(10) <==> r.value[Bottom] == Auto)
    ensures r.Some? ==> (r.value[Left] == Px(10) <==> r.value[Right] == Auto)
    ensures r.Some? ==> (r.value[Top] == Px(10) <==> name in {"top-left", "top-right"})
    ensures r.Some? ==> (r.value[Left] == Px(10) <==> name in {"top-left", "bottom-left"})
  {
    if name == "top-left" then Some(map[Top := Px(10), Left := Px(10), Bottom := Auto, Right := Auto])
    else if name == "top-right" then Some(map[Top := Px(10), Right := Px(10), Bottom := Auto, Left := Auto])
    else if name == "bottom-left" then Some(map[Bottom := Px(10), Left := Px(10), Top := Auto, Right := Auto])
    else if name == "bottom-right" then Some(map[Bottom := Px(10), Right := Px(10), Top := Auto, Left := Auto])
    else None
  }

  /** `Object.assign(style, this.positions[name])`; assigning `undefined` changes nothing. */
  function ApplyAnchor(style: Style, name: string): (r: Style)
    ensures CornerAnchor(name).None? ==> r == style
    ensures CornerAnchor(name).Some? ==>
      forall side :: side in CornerAnchor(name).value && r.Get(side) == CornerAnchor(name).value[side]
  {
    match CornerAnchor(name)
    case None => style
    case Some(patch) => Assign(style, patch)
  }

  /**
   * Anchoring to a corner overrides any earlier placement, a free one left
   * by a drag included: the result is the same as anchoring a fresh element.
   */
  lemma AnchorOverridesPlacement(style: Style, name: string)
    requires CornerAnchor(name).Some?
    ensures ApplyAnchor(style, name) == ApplyAnchor(NoOffsets, name)
    ensures ApplyAnchor(style, name).Get(Top) != ApplyAnchor(style, name).Get(Bottom)
    ensures ApplyAnchor(style, name).Get(Left) != ApplyAnchor(style, name).Get(Right)
  {
    FullPatchOverrides(style, NoOffsets, CornerAnchor(name).value);
  }

  /**
   * A whole drag leaves the element at a free placement; a settings message
   * that then names a corner puts it back on that corner, as on a fresh
   * element.
   */
  lemma AnchorAfterDrag(s: Surface, cx: int, cy: int, ol: int, ot: int, moves: seq<PointerEvent>, name: string)
    requires OnlyMoves(moves) && |moves| > 0 && CornerAnchor(name).Some?
    ensures var dragged := Run(s, [MouseDown(cx, cy, ol, ot)] + moves + [MouseUp]).style;
      var last := moves[|moves| - 1];
      dragged == PlacedAt(last.clientX - (cx - ol), last.clientY - (cy - ot)) &&
      ApplyAnchor(dragged, name) == ApplyAnchor(NoOffsets, name)
  {
    DragCycle(s, cx, cy, ol, ot, moves);
    AnchorOverridesPlacement(Run(s, [MouseDown(cx, cy, ol, ot)] + moves + [MouseUp]).style, name);
  }

  /** `world-clock-container ${theme}`. */
  function ClassFor(settings: Settings): string
  {
    BaseClass + " " + Text(Lookup(settings, Theme))
  }

  class WorldClock {
    var settings: Settings
    var container: Element?

    /** Once the element exists, its class always shows the cached theme. */
    ghost predicate Valid()
      reads this, container
    {
      container != null ==> container.className == ClassFor(settings)
    }

    constructor ()
      ensures settings == ContentDefaults && container == null && Valid()
    {
      settings := ContentDefaults;
      container := null;
    }

    /**
     * `initialize`: the stored settings are merged over the current ones,
     * then the element is built with the theme class, the corner anchor and
     * placeholder text, and the drag handlers are attached to it.
     */
    method Initialize(store: Settings) returns (surface: DragSurface)
      modifies this
      ensures settings == Merge(old(settings), Requested(store, StoredKeys))
      ensures container != null && fresh(container)
      ensures container.style == ApplyAnchor(NoOffsets, Text(Lookup(settings, Position)))
      ensures container.timeText == TimePlaceholder && container.dateText == DatePlaceholder
      ensures container.status == Syncing
      ensures fresh(surface) && surface.target == container && surface.State() == Released
      ensures Valid()
    {
      settings := Merge(settings, Requested(store, StoredKeys));
      var style := ApplyAnchor(NoOffsets, Text(Lookup(settings, Position)));
      container := new Element(ClassFor(settings), style, TimePlaceholder, DatePlaceholder, Syncing);
      surface := new DragSurface(container);
    }

    /**
     * `updateClock` once the fetch has answered: nothing happens without an
     * element; a sample updates the time and date and reports success; a
     * failed fetch keeps the time and date and reports the error.
     */
    method UpdateClock(data: Option<TimeSample>, localeDate: TimeSample -> string)
      requires Valid()
      modifies container
      ensures Valid()
      ensures container != null ==> container.className == old(container.className)
      ensures container != null ==> container.style == old(container.style)
      ensures container != null && data.Some? ==>
        container.timeText == FormatTime(data, Truthy(Lookup(settings, Format24h))) &&
        container.dateText == FormatDate(data, localeDate) &&
        container.status == Synced
      ensures container != null && data.None? ==>
        container.timeText == old(container.timeText) &&
        container.dateText == old(container.dateText) &&
        container.status == SyncError
    {
      if container == null {
        return;
      }
      match data
      case Some(t) =>
        container.SetTexts(FormatTime(data, Truthy(Lookup(settings, Format24h))), FormatDate(data, localeDate), Synced);
      case None =>
        container.SetTexts(container.timeText, container.dateText, SyncError);
    }

    /**
     * The message listener: an `updateSettings` message is merged over the
     * settings and the class is rewritten; the corner is re-applied only
     * when the message itself carries a truthy position. Other messages are
     * ignored.
     */
    method OnMessage(msg: Message)
      requires Valid() && container != null
      modifies this, container
      ensures container == old(container) && Valid()
      ensures settings == if msg.action == UpdateSettings then Merge(old(settings), msg.settings) else old(settings)
      ensures container.className == ClassFor(settings)
      ensures container.style ==
        if msg.action == UpdateSettings && Truthy(Lookup(msg.settings, Position))
        then ApplyAnchor(old(container.style), Text(Lookup(msg.settings, Position)))
        else old(container.style)
      ensures container.timeText == old(container.timeText) && container.dateText == old(container.dateText)
      ensures container.status == old(container.status)
    {
      if msg.action == UpdateSettings {
        settings := Merge(settings, msg.settings);
        container.className := ClassFor(settings);
        var position := Lookup(msg.settings, Position);
        if Truthy(position) {
          container.style := ApplyAnchor(container.style, Text(position));
        }
      }
    }
  }

  /** A fresh widget on an empty store is dragged, then receives an update that changes nothing. */
  method DragSurvivesEmptyUpdate()
  {
    var clock := new WorldClock();
    var surface := clock.Initialize(map[]);
    MergeEmpty(ContentDefaults);
    assert clock.container.className == BaseClass + " " + "dark";
    assert clock.container.style == Style(Auto, Px(10), Px(10), Auto);

    surface.OnMouseDown(500, 400, 480, 390);
    surface.OnMouseMove(300, 200);
    surface.OnMouseUp();
    assert clock.container.style == PlacedAt(280, 190);

    clock.OnMessage(Message(UpdateSettings, map[]));
    assert clock.container.className == BaseClass + " " + "dark";
    assert clock.container.style == PlacedAt(280, 190);
  }

  /** The settings panel saves light theme, 12-hour format and the top-left corner; then a fetch fails. */
  method PanelSave(localeDate: TimeSample -> string)
  {
    var clock := new WorldClock();
    var surface := clock.Initialize(map[]);
    var saved := map[Theme := Str("light"), Format24h := Bool(false), Position := Str("top-left")];
    assert Lookup(saved, Position) == Some(Str("top-left"));
    clock.OnMessage(Message(UpdateSettings, saved));
    assert clock.container.className == BaseClass + " " + "light";
    assert clock.container.style == Style(Px(10), Auto, Auto, Px(10));

    clock.UpdateClock(None, localeDate);
    assert clock.container.status == SyncError;
  }
}
