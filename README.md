# DyskoClock, modelled in Dafny

DyskoClock is a browser extension. It shows a small clock widget in a corner of every page. The widget displays the Europe/Paris time and date that it fetches from a time service, and a status line ("Synchronisation...", "Synchronisé" or "Erreur de synchronisation"). The user can drag the widget. A settings panel chooses its theme, the 12-hour or 24-hour format and its corner. The code comes in two copies that differ:

- **Content script** (`content.js`): the `WorldClock` class.
- **Background script** (`background.js`): module-level functions.

This project models the logic beneath the browser glue:

- **`TimeFormat`** (`time_format.dfy`)
  - Both `formatTime` variants: the content script pads the hour to two digits, the background script does not. `Hour12` models `hour % 12 || 12`, with JavaScript's truncating remainder written out. `NumberText` and `PadStart` model `toString` and `padStart`.
  - The placeholder guard of `formatDate`.
  - An independent reader `ParseClock` for `H:M:S[ AM| PM]` faces. It is the partner of both formatters: round-trip lemmas prove that each face reads back as its hour, minute, second and meridiem.
- **`Settings`** (`settings.dfy`)
  - Settings are a map from key to a string or boolean value; an absent key reads as `undefined`.
  - The shallow merge `{...a, ...b}` and the storage read of a list of keys.
  - JavaScript truthiness and template-literal text.
- **`Dom`** (`dom.dfy`)
  - The inline `top`/`right`/`bottom`/`left` edges and `Object.assign` on them.
  - The status line.
  - The `Element` class whose class name, style and text lines the scripts write.
- **`Drag`** (`drag.dfy`)
  - The drag-and-drop handlers as a state machine (`Step`, `Run`), with lemmas about whole drags.
  - The `DragSurface` class: its `isDragging`/`initialX`/`initialY` fields and its three handlers. Each handler is proved equal to one `Step`.
- **`ContentScript`** (`content_script.dfy`)
  - The `positions` table and `WorldClock` (`initialize`, `updateClock`, the message listener), all as a class over `Element`.
  - Two client scenarios, `DragSurvivesEmptyUpdate` and `PanelSave`, run the class through a drag and a settings save.
- **`Background`** (`background.dfy`)
  - The background script's module state as the class `BackgroundClock`: start-up, `fetchTime`'s error report, `updateClock` and the message listener.
  - The scenario `FetchThenSample`.

The network answer is an input `Option<TimeSample>`: `None` stands for a failed fetch. The French date rendering of `toLocaleDateString` is the function parameter `localeDate`. The element's `offsetLeft`/`offsetTop`, which come from layout, are parameters of the press event.

Two behaviours of the code are worth knowing:

- The content script pads the hour, so 13 o'clock on the 12-hour dial reads `"01:05:07 PM"`; the background script prints `"1:05:07 PM"` (`AfternoonExample`, `VariantsDiffer`).
- Neither script validates stored or received values: `Merge` keeps whatever arrives, and an unknown position finds no entry in `positions`, so `Object.assign` changes nothing (`ApplyAnchor`).

## Model

| member | source | states |
|---|---|---|
| TimeFormat.Digits | content.js:135 | the decimal text of a natural number is a non-empty digit run, one character long exactly below ten |
| TimeFormat.DigitsNoLeadingZero | content.js:135 | from ten on, the decimal text does not start with '0' |
| TimeFormat.DigitsRoundTrip | content.js:135 | the decimal text of a natural number reads back as that number |
| TimeFormat.NumberText | background.js:121 | `toString` of an integer is non-empty |
| TimeFormat.NumberTextSign | background.js:121 | the text starts with '-' exactly for negative numbers and ends in a digit |
| TimeFormat.NumberTextDenotes | background.js:121 | the text of a non-negative number reads back as that number |
| TimeFormat.PadStart | content.js:137 | `padStart` gives the text's length or the width, whichever is larger |
| TimeFormat.PadStartFill | content.js:137 | `padStart` keeps the text at the end and puts only filler before it |
| TimeFormat.LeadingZerosIgnored | content.js:137-138 | zeros put in front of a digit run keep it a digit run denoting the same number |
| TimeFormat.Pad2 | content.js:137 | a padded field has at least two characters, exactly two for 0..99 |
| TimeFormat.Pad2Denotes | content.js:137-138 | a padded non-negative field is all digits and reads back as the number |
| TimeFormat.Pad2OfHour | content.js:134-136 | padding adds one zero below ten and nothing from ten on |
| TimeFormat.JsRemainder12 | content.js:136 | `hour % 12` truncates: it lies strictly between -12 and 12, takes the sign of the hour and differs from it by a multiple of 12 |
| TimeFormat.Hour12 | content.js:136 | `hour % 12`, with 0 replaced by 12, is never 0; for a non-negative hour it lies in 1..12 and agrees with the hour modulo 12 |
| TimeFormat.DisplayedHour | content.js:134-136 | the raw hour in 24-hour mode; on the 12-hour dial a non-negative hour shows as 1..12 (`Hour12`, `MidnightExample`, `AfternoonExample` pin the values) |
| TimeFormat.MeridiemOf | content.js:139 | no meridiem exactly in 24-hour mode; PM exactly in 12-hour mode from hour 12 on, so AM below it |
| TimeFormat.Compose | content.js:141 | no contract of its own: `ComposeMeridiem` and `ComposeRoundTrip` show that `${hours}:${minutes}:${seconds}${ampm}` ends in the right meridiem and reads back as its fields |
| TimeFormat.FormatTime | content.js:131-142 | a missing sample gives exactly "--:--:--"; a present one gives at least eight characters |
| TimeFormat.FormatTimeMeridiem | content.js:139-141 | no " AM"/" PM" in 24-hour mode; in 12-hour mode " PM" exactly when hour >= 12 and " AM" exactly when hour < 12 |
| TimeFormat.FormatTimeShape | content.js:134-141 | with two-digit fields the face is exactly `HH:MM:SS` followed by the suffix, each field all digits |
| TimeFormat.FormatTimeRoundTrip | content.js:131-142 | the content script's face reads back as displayed hour, minute, second and meridiem |
| TimeFormat.MidnightExample | content.js:136 | hour 0 on the 12-hour dial shows "12:05:07 AM" |
| TimeFormat.AfternoonExample | content.js:134-141 | hour 13 on the 12-hour dial shows "01:05:07 PM" in the content script and "1:05:07 PM" in the background script |
| TimeFormat.FormatTimeUnpadded | background.js:120-126 | the background script's face has at least seven characters |
| TimeFormat.FormatTimeUnpaddedMeridiem | background.js:124-125 | the same meridiem rule for the background script's face |
| TimeFormat.FormatTimeUnpaddedRoundTrip | background.js:120-126 | the background script's face reads back as displayed hour, minute, second and meridiem |
| TimeFormat.VariantsDiffer | content.js:134-136 | the two variants agree exactly when the displayed hour has two digits; below ten the content face is the background face with a leading "0" |
| TimeFormat.FormatDate | content.js:144-159 | a missing sample gives exactly "--/--/----"; a present one gives the locale rendering of that sample |
| Settings.Lookup | content.js:199 | a property is defined exactly when its key is present, with the stored value |
| Settings.Truthy | content.js:199 | no contract of its own: the JavaScript rule that `""`, `false` and `undefined` are falsy, which `WorldClock.OnMessage` uses to decide whether the corner is re-applied |
| Settings.Text | content.js:197 | no contract of its own: what `${value}` prints (the string itself, "true"/"false", "undefined" when absent); `Background.ThemeClass` states it for the theme |
| Settings.Merge | content.js:196 | the merge has the keys of both; the update's keys take its values, all others keep theirs |
| Settings.Requested | content.js:185-187 | a storage read returns exactly the requested keys the store holds, with their values |
| Settings.MergeEmpty | content.js:189 | merging an empty object changes nothing |
| Settings.MergeIdempotent | content.js:196 | delivering the same update twice equals delivering it once |
| Settings.MergeSequence | content.js:196 | two updates in a row equal one update by their own merge, the later winning |
| Settings.EmptyStoreGivesDefaults | content.js:3-7 | with an empty store the content script is dark, 24-hour, bottom-right |
| Dom.Assign | content.js:200 | `Object.assign` sets the sides the patch names and leaves the others |
| Dom.FullPatchOverrides | content.js:200 | a patch naming all four sides gives the same placement whatever came before |
| Dom.StatusLine.Text | content.js:173-175 | no contract of its own: the status texts "Synchronisation...", "Synchronisé" and "Erreur de synchronisation", written by the `UpdateClock` and `Initialize` methods |
| Dom.Element.SetTexts | content.js:171-175 | writing the three text lines leaves the class and the placement alone |
| Drag.Step | content.js:96-117 | a press starts a drag recording pointer minus element offset and keeps the placement; a move is ignored unless dragging and otherwise places the element at pointer minus offset; a release ends the drag and keeps the offset and placement |
| Drag.Run | content.js:91-118 | no contract of its own: events handled in order; `RunAppend`, `IdleIgnoresEvents`, `MovesWhileDragging` and `DragCycle` state its behaviour |
| Drag.MovePlaces | content.js:106-112 | a move leaves the element at left/top in pixels with right and bottom 'auto', whatever it was before |
| Drag.RunAppend | content.js:96-117 | handling two event runs in a row equals handling their concatenation |
| Drag.IdleIgnoresEvents | content.js:102-103 | when no drag is in progress, moves and releases change neither the state nor the element |
| Drag.MovesWhileDragging | content.js:102-113 | during a drag the element sits at the last pointer position minus the recorded offset |
| Drag.DragCycle | content.js:91-118 | after press, moves and release the drag is over and the element sits at last pointer minus (cx - ol, cy - ot) |
| Drag.PressInPlace | content.js:96-113 | pressing and moving to the same point pins the element at the offsets layout reported |
| Drag.DragSurface.constructor | content.js:92-94 | the handlers start with no drag in progress |
| Drag.DragSurface.OnMouseDown | content.js:96-100 | a press starts a drag and records pointer minus element offset |
| Drag.DragSurface.OnMouseMove | content.js:102-113 | a move writes left/top and releases right/bottom only while dragging; it equals one step of the state machine |
| Drag.DragSurface.OnMouseUp | content.js:115-117 | a release ends the drag and keeps the recorded offset |
| ContentScript.CornerAnchor | content.js:9-14 | exactly the four corner names have an entry; each sets all four sides, each side to 10px or auto; top and bottom, left and right are opposite; the name's corner sides are the 10px ones |
| ContentScript.ApplyAnchor | content.js:200 | an unknown name (`positions[name]` undefined) leaves the placement unchanged; a corner name sets every side to that corner's entry |
| ContentScript.ClassFor | content.js:197 | no contract of its own: `world-clock-container ${theme}`; `WorldClock.OnMessage` ensures the class equals it after each update and `WorldClock.Valid` keeps it so |
| ContentScript.AnchorOverridesPlacement | content.js:199-201 | applying a corner gives the same placement as on a fresh element, a dragged one included |
| ContentScript.AnchorAfterDrag | content.js:199-201 | a whole drag leaves the element at last pointer minus (cx - ol, cy - ot); a message then naming a corner puts it back on that corner as on a fresh element |
| ContentScript.WorldClock.constructor | content.js:2-18 | default settings, no element yet |
| ContentScript.WorldClock.Initialize | content.js:184-192 | stored theme, format and position are merged over the defaults; the element gets the theme class, the corner anchor, the placeholders and the syncing status, and drag handlers at rest |
| ContentScript.WorldClock.UpdateClock | content.js:161-177 | no element: nothing; a sample: formatted time, date and "Synchronisé"; no sample: time and date kept, error status; class and placement kept |
| ContentScript.WorldClock.OnMessage | content.js:194-203 | an update is merged; the class becomes "world-clock-container " + theme; the corner is re-applied only for a truthy position, else the placement (a drag's included) is kept; texts kept |
| Background.ThemeClass | background.js:152 | the class is the theme string itself, "undefined" when no theme is set |
| Background.BackgroundClock.constructor | background.js:101-104 | defaults dark and 24-hour, no clock yet |
| Background.BackgroundClock.Startup | background.js:220-227 | stored theme and format are merged over the defaults; the clock gets the theme class, no offsets, empty lines |
| Background.BackgroundClock.FetchTime | background.js:106-118 | the answer is handed back unchanged; a failed fetch sets the error status when the clock exists, nothing else changes |
| Background.BackgroundClock.UpdateClock | background.js:176-192 | no clock: nothing; a sample: unpadded time, date, "Synchronisé" and the theme class; no sample: texts kept, error status from the fetch |
| Background.BackgroundClock.OnMessage | background.js:229-235 | an update is merged; the class becomes the theme when the clock exists; placement and texts kept |
| Background.StartupIgnoresPosition | background.js:222-223 | a stored position has no effect on the background script's start-up settings |

## Left out

- `fetch` and `response.json()` to the time service are network I/O. Their outcome is the input `Option<TimeSample>`, and a JSON field that is not an integer is not modelled.
- `chrome`/`browser` storage, `tabs.query`, `sendMessage` and listener registration are host-runtime calls. Their results (the stored object, the message) are inputs.
- The `setInterval` timers are timing and concurrency: the 1 s interval, the background script's duplicate 1 s and 60 s intervals, the first `updateClock` call at start-up and overlapping asynchronous ticks. Each tick is one call of `UpdateClock` by the caller.
- `toLocaleDateString('fr-FR', …)` in `formatDate` is a locale library. It is the parameter `localeDate`, and only the placeholder guard is modelled.
- DOM creation, `innerHTML`, CSS injection, the fixed "Europe/Paris" line and the popup markup are markup and configuration. The element is reduced to its class, inline edges and three text lines.
- popup.js is UI glue that reads form fields, writes storage and sends the message; it is not part of this model.
- Pixel strings are not modelled: an edge is `Unset`, `Auto` or an integer number of pixels.
- The `console.error` logging in both `fetchTime` catch blocks (content.js:126, background.js:113) is not modelled; it writes only to the developer console.
- `e.preventDefault()` in the move handler is not modelled; it has no effect on the widget's state.
- Stored and message values are limited to strings and booleans. Other JSON values (numbers, objects, `null`) are not modelled.
- A message whose `settings` is missing makes the content script's listener throw a `TypeError`. The model's message always carries a settings object.
- Before the first press, `initialX`/`initialY` are `undefined`; the model starts them at 0. No move reads them before a press sets them.
- The `updateInterval` field and `startUpdates` are not modelled; they only start the timers above.
