/**
 * The background script's clock: module-level settings, a clock element
 * whose class is the bare theme name, and an `updateClock` that formats
 * the hour without padding and reports the state of the last fetch on the
 * status line.
 */
module Background {
  import opened Optional
  import opened TimeFormat
  import opened Settings
  import opened Dom

  /** The keys the start-up code asks storage for. */
  const StoredKeys := {Theme, Format24h}

  /** The class the clock element carries: the theme's text, nothing else. */
  function ThemeClass(settings: Settings): (r: string)
    ensures Theme in settings && settings[Theme].Str? ==> r == settings[Theme].s
    ensures Theme !in settings ==> r == "undefined"
  {
    Text(Lookup(settings, Theme))
  }

  class BackgroundClock {
    var settings: Settings
    var container: Element?

    /** Once the clock exists, its class is the cached theme. */
    ghost predicate Valid()
      reads this, container
    {
      container != null ==> container.className == ThemeClass(settings)
    }

    /** The script is loaded: defaults in place, no clock on the page yet. */
    constructor ()
      ensures settings == BackgroundDefaults && container == null && Valid()
    {
      settings := BackgroundDefaults;
      container := null;
    }

    /**
     * Start-up in a page: the stored theme and format are merged over the
     * settings, then `createClock` appends an element with the theme as
     * its class, no inline offsets, and empty time, date and status lines.
     */
    method Startup(store: Settings)
      modifies this
      ensures settings == Merge(old(settings), Requested(store, StoredKeys))
      ensures container != null && fresh(container)
      ensures container.style == NoOffsets
      ensures container.timeText == "" && container.dateText == "" && container.status == Blank
      ensures Valid()
    {
      settings := Merge(settings, Requested(store, StoredKeys));
      container := new Element(ThemeClass(settings), NoOffsets, "", "", Blank);
    }

    /**
     * `fetchTime` with the answer given as `response`: a failed fetch puts
     * the error on the status line, when there is one; the answer is
     * handed back as it is.
     */
    method FetchTime(response: Option<TimeSample>) returns (data: Option<TimeSample>)
      requires Valid()
      modifies container
      ensures data == response && Valid()
      ensures container != null ==>
        container.className == old(container.className) && container.style == old(container.style) &&
        container.timeText == old(container.timeText) && container.dateText == old(container.dateText)
      ensures container != null ==>
        container.status == if response.None? then SyncError else old(container.status)
    {
      data := response;
      if response.None? && container != null {
        container.SetTexts(container.timeText, container.dateText, SyncError);
      }
    }

    /**
     * `updateClock`: nothing happens without a clock, not even the fetch.
     * Otherwise the fetch is made; a failed one has already reported the
     * error and nothing more changes; a sample writes the unpadded time,
     * the date and the success status, and rewrites the class from the
     * theme.
     */
    method UpdateClock(response: Option<TimeSample>, localeDate: TimeSample -> string)
      requires Valid()
      modifies container
      ensures Valid()
      ensures container != null ==> container.style == old(container.style)
      ensures container != null && response.Some? ==>
        container.timeText == FormatTimeUnpadded(response.value, Truthy(Lookup(settings, Format24h))) &&
        container.dateText == localeDate(response.value) &&
        container.status == Synced
      ensures container != null && response.None? ==>
        container.timeText == old(container.timeText) &&
        container.dateText == old(container.dateText) &&
        container.status == SyncError
    {
      if container == null {
        return;
      }
      var data := FetchTime(response);
      match data
      case Some(t) =>
        container.SetTexts(FormatTimeUnpadded(t, Truthy(Lookup(settings, Format24h))), localeDate(t), Synced);
        container.className := ThemeClass(settings);
      case None =>
    }

    /**
     * The message listener: an `updateSettings` message is merged over the
     * settings and, when the clock exists, its class is rewritten from the
     * theme. Other messages are ignored.
     */
    method OnMessage(msg: Message)
      requires Valid()
      modifies this, container
      ensures container == old(container) && Valid()
      ensures settings == if msg.action == UpdateSettings then Merge(old(settings), msg.settings) else old(settings)
      ensures container != null ==> container.className == ThemeClass(settings)
      ensures container != null ==>
        container.style == old(container.style) &&
        container.timeText == old(container.timeText) &&
        container.dateText == old(container.dateText) &&
        container.status == old(container.status)
    {
      if msg.action == UpdateSettings {
        settings := Merge(settings, msg.settings);
        if container != null {
          container.className := ThemeClass(settings);
        }
      }
    }
  }

  /** The background page never reads a position: whatever storage holds under it, start-up ignores it. */
  lemma StartupIgnoresPosition(store: Settings, v: Value)
    ensures Merge(BackgroundDefaults, Requested(store[Position := v], StoredKeys))
         == Merge(BackgroundDefaults, Requested(store - {Position}, StoredKeys))
  {
    var a, b := Requested(store[Position := v], StoredKeys), Requested(store - {Position}, StoredKeys);
    assert a.Keys == b.Keys;
  }

  /** A fresh page, a start-up from an empty store, a failed fetch, then a sample in 12-hour format. */
  method FetchThenSample(localeDate: TimeSample -> string)
  {
    var clock := new BackgroundClock();
    clock.Startup(map[]);
    assert Requested(map[], StoredKeys) == map[];
    MergeEmpty(BackgroundDefaults);
    assert clock.container.className == "dark";

    clock.UpdateClock(None, localeDate);
    assert clock.container.status == SyncError && clock.container.timeText == "";

    clock.OnMessage(Message(UpdateSettings, map[Format24h := Bool(false)]));
    assert !Truthy(Lookup(clock.settings, Format24h));
    var t := TimeSample(2024, 5, 1, 13, 5, 7);
    clock.UpdateClock(Some(t), localeDate);
    AfternoonExample();
    assert clock.container.timeText == "1:05:07 PM";
    assert clock.container.status == Synced;
  }
}
