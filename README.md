# Countdown tracker — a verified model of its core

The application keeps a list of deadline events in the browser's storage
and shows one card per event. Each card shows a ticking reading of the
time left, coloured by urgency, and can export itself as a JPEG picture.
This project models the logic behind that in Dafny:

- `Types` (`types.dfy`): the `CountdownEvent` record and the
  `TimeRemaining` reading, plus an `Option` type.
- `Utils` (`utils.dfy`): the time engine and the status classifier.
  - `calculateTimeRemaining` splits a millisecond difference into days,
    hours, minutes and seconds.
  - `formatTimeNumber` zero-pads a number to two characters.
  - `getStatusColor` maps a remaining time to one of four urgency tiers.
  - The source computes with JavaScript numbers. The model keeps the same
    formulas on exact reals, writing out `Math.floor` and the truncating
    `%`, and proves that they equal integer division and remainder.
- `App` (`app.dfy`): the event store, a class holding the event list and
  its storage slot.
  - Loading falls back to `[]` for an absent, empty, unparseable or
    non-array slot.
  - Adding prepends, deleting filters by id, and clearing asks for
    confirmation.
  - Every change writes the list back to the slot.
- `CountdownCard` (`countdown_card.dfy`): one card.
  - The card's state is a class: the reading the timer refreshes, the
    export popover flag, and the chosen colour and font presets.
  - `roundRect` is modelled, and so is the export. The canvas drawing is a
    sequence of draw commands, built by methods that follow the source's
    calls and its `forEach` loop. Each method is proved equal to a
    specification function of the picture.
  - Lemmas state what the picture shows on each line: the title, the
    description, the four unit cards or the completed banner, and the
    footer.
  - The download file name is modelled too.

Deleting removes every event that has the id, not only the first.
Clearing the list happens only after the user confirms the prompt.

## Model

| member | source | states |
|---|---|---|
| Utils.CalculateTimeRemaining | utils.ts:4-17 | a target at or before now gives the all-zero reading with `totalMs` 0; otherwise `totalMs` is the difference unchanged; hours < 24, minutes and seconds < 60, days ≥ 0; days·86400000 + hours·3600000 + minutes·60000 + seconds·1000 equals `totalMs` rounded down to a whole second |
| Utils.Reconstruction | utils.ts:11-14 | the day/hour/minute/second decomposition of a non-negative count rebuilds the count less its sub-second remainder |
| Utils.UnitFormulas | utils.ts:11-14 | the source's `Math.floor((t/1000) % 60)`, `Math.floor((t/1000/60) % 60)`, `Math.floor((t/3600000) % 24)` and `Math.floor(t/86400000)`, taken on exact reals with JavaScript's truncating `%`, equal the integer quotients and remainders for every positive count |
| Utils.SubSecondReading | utils.ts:7-16 | a positive difference under one second reads zero in every unit, yet `totalMs` stays positive |
| Utils.PadStart | utils.ts:20 | `padStart`: the result has the target length or the original length, whichever is larger; it ends with the original string and is filled with the pad character before it |
| Utils.FormatTimeNumber | utils.ts:19-21 | the result is never shorter than 2 characters; 0..9 become `'0'` followed by the digit; other numbers, negative ones included, are their plain decimal form |
| Utils.NatToStringRoundTrip | utils.ts:20 | reading the decimal form of a natural number back gives the number |
| Utils.FormatTimeNumberRoundTrip | utils.ts:19-21 | a formatted non-negative number is all digits and reads back as the number, so the zero padding never changes the value |
| Utils.GetStatusColor | utils.ts:23-28 | red exactly when ms ≤ 0; orange exactly when 0 < ms < 3600000; blue exactly when 3600000 ≤ ms < 86400000; emerald exactly when ms ≥ 86400000 |
| Utils.StatusClassName | utils.ts:23-28 | the class name is "text-red-500" exactly when ms ≤ 0, "text-orange-500" exactly when 0 < ms < 3600000, "text-blue-500" exactly when 3600000 ≤ ms < 86400000, and "text-emerald-500" exactly when ms ≥ 86400000 |
| Utils.StatusBoundaries | utils.ts:24-27 | 0 is red, 1 is orange, 3599999 is orange, 3600000 is blue, 86399999 is blue, 86400000 is emerald |
| Utils.StatusMonotone | utils.ts:23-28 | more time left never gives a more urgent tier, in the order red < orange < blue < emerald |
| Utils.ReadingTier | components/CountdownCard.tsx:261-264 | the tier of a computed reading is red exactly when the target has been reached, and emerald exactly when at least one whole day is left |
| App.LoadEvents | App.tsx:8-20 | an absent, empty or unparseable slot gives `[]`, and so does a parsed non-array; a slot holding the serialisation of a list gives that list back |
| App.EventStore.constructor | App.tsx:8-26 | mounting loads the list from the slot, and the persist effect then leaves the slot holding the list's serialisation |
| App.EventStore.Persist | App.tsx:24-26 | the slot holds the serialisation of the current list |
| App.EventStore.AddManual | App.tsx:28-30 | the new list is the event followed by the old list, and the slot holds its serialisation |
| App.WithoutId | App.tsx:33 | the result is no longer than the input; a record is in it exactly when it was in the input and has a different id; every record with a different id occurs in it exactly as often as in the input, and records with the id not at all |
| App.WithoutIdKeepsOrder | App.tsx:33 | the surviving records are a subsequence of the input, so they keep their relative order |
| App.WithoutAbsentId | App.tsx:33 | filtering by an id that no record has leaves the list unchanged |
| App.WithoutIdIdempotent | App.tsx:32-34 | deleting the same id twice is the same as deleting it once |
| App.EventStore.Delete | App.tsx:32-34 | the new list is the old list without every record that has the id, and the slot holds its serialisation |
| App.AddThenDelete | App.tsx:28-34 | adding an event and then deleting its id restores the list, when no record already had that id |
| App.EventStore.ClearAll | App.tsx:36-40 | a confirmed clear empties the list; a declined one changes neither the list nor the slot; the slot always holds the list's serialisation |
| CountdownCard.ExpiredIffReached | components/CountdownCard.tsx:61 | a computed reading is expired exactly when the target instant is at or before now |
| CountdownCard.ClampedRadius | components/CountdownCard.tsx:65-66 | the radius used is at most the requested one, at most half the width and at most half the height, and equal to one of those three |
| CountdownCard.RadiusKeptWhenFits | components/CountdownCard.tsx:65-66 | a radius with 2r ≤ w and 2r ≤ h is kept unchanged; a non-negative box and radius give a non-negative radius |
| CountdownCard.RoundRect | components/CountdownCard.tsx:64-75 | the traced path is the closed rounded outline of the box with the clamped radius |
| CountdownCard.RowCentred | components/CountdownCard.tsx:114-118 | the row is 1000 px wide and starts at x = 100; the left and right margins are equal |
| CountdownCard.CardsSpaced | components/CountdownCard.tsx:121-122 | card i is at x = 100 + 260·i; consecutive cards are exactly 40 px apart; cards never overlap and lie inside the 1200 px canvas |
| CountdownCard.CardPlaced | components/CountdownCard.tsx:121-122 | every card i in 0..3, the last one included, is at x = 100 + 260·i and lies inside the 1200 px canvas |
| CountdownCard.ToUpper | components/CountdownCard.tsx:144 | upper-casing keeps the length and maps each character on its own |
| CountdownCard.LabelsUpperCased | components/CountdownCard.tsx:107-112 | the labels Days, Hours, Mins and Secs are drawn as DAYS, HOURS, MINS and SECS |
| CountdownCard.TitleText | components/CountdownCard.tsx:95 | an empty title is drawn as "Untitled Event", any other title as given |
| CountdownCard.DescriptionText | components/CountdownCard.tsx:100 | a missing or empty description is drawn as "Deadline Countdown", any other as given |
| CountdownCard.CardCornersKept | components/CountdownCard.tsx:127 | a card box is the rounded 220 × 240 outline at its x and y = 340, keeping the full corner radius 30 |
| CountdownCard.DrawCard | components/CountdownCard.tsx:121-145 | one iteration of the loop draws the card box filled, an outline on the White theme only, the padded value 130 px below the card's top and the upper-cased label 185 px below it, both centred on the card |
| CountdownCard.DrawUnitCards | components/CountdownCard.tsx:121-145 | the loop's output is the cards of the units, one per unit, in unit order |
| CountdownCard.RenderExport | components/CountdownCard.tsx:85-158 | the drawing issues the background, the title and the description, then the completed banner if expired or else the unit cards, then the target line and the brand line |
| CountdownCard.CardValuesShown | components/CountdownCard.tsx:121-139 | the values line shows exactly the formatted values of the units, one per card, in order |
| CountdownCard.CardLabelsShown | components/CountdownCard.tsx:121-144 | the labels line shows exactly the upper-cased labels of the units, one per card, in order |
| CountdownCard.CardsQuietElsewhere | components/CountdownCard.tsx:121-145 | the cards draw text on no line other than the values line and the labels line |
| CountdownCard.CardBoxesShown | components/CountdownCard.tsx:121-127 | the filled shapes of the cards are exactly the card boxes 0, 1, … in order |
| CountdownCard.HeadingExport | components/CountdownCard.tsx:91-100 | the exported picture shows the title text at y = 180, the description text at y = 250, "TARGET: " and the date at y = 680, and "TIMER BD" at y = 740, each as the only text on its line |
| CountdownCard.ExpiredExport | components/CountdownCard.tsx:102-105 | an expired reading's picture shows "COMPLETED" at y = 480, fills no card and shows nothing on the values and labels lines |
| CountdownCard.RunningBoxes | components/CountdownCard.tsx:106-127 | a running reading's picture fills exactly four card boxes, cards 0 to 3 in order |
| CountdownCard.RunningValues | components/CountdownCard.tsx:107-139 | a running reading's values line shows the padded days, hours, minutes and seconds, in that order |
| CountdownCard.RunningLabels | components/CountdownCard.tsx:107-144 | a running reading's labels line shows DAYS, HOURS, MINS, SECS, and nothing is drawn on the completed-banner line |
| CountdownCard.CollapseWhitespace | components/CountdownCard.tsx:162 | `replace(/\s+/g, '_')`: the result is never longer than the input, is empty exactly when the input is, and holds no whitespace |
| CountdownCard.CollapseKeepsWord | components/CountdownCard.tsx:162 | text without whitespace is left as it is |
| CountdownCard.CollapseWordThenRun | components/CountdownCard.tsx:162 | a word followed by a maximal whitespace run becomes the word, one `_`, then the rest collapsed |
| CountdownCard.BlankTitleCollapses | components/CountdownCard.tsx:162 | a non-empty all-whitespace title becomes a single `_`, so it does not fall back to "deadline" |
| CountdownCard.DownloadName | components/CountdownCard.tsx:162 | the file name always ends in ".jpg" and holds no whitespace; an empty title gives "deadline.jpg"; any other title gives its collapsed form plus ".jpg" |
| CountdownCard.Card.constructor | components/CountdownCard.tsx:33-37 | a new card holds the reading for now, the popover closed, and the first colour and font presets |
| CountdownCard.Card.Tick | components/CountdownCard.tsx:41-44 | a tick replaces the reading with the one for the new instant |
| CountdownCard.Card.ToggleSettings | components/CountdownCard.tsx:184 | the button flips the popover flag |
| CountdownCard.Card.MouseDown | components/CountdownCard.tsx:49-59 | a press outside the download button and its popover closes an open popover; a press inside them changes nothing, and a closed popover stays closed |
| CountdownCard.Card.SelectColor | components/CountdownCard.tsx:208 | choosing a colour preset makes it the selected one |
| CountdownCard.Card.SelectFont | components/CountdownCard.tsx:221 | choosing a font preset makes it the selected one |
| CountdownCard.Card.DownloadAsJpg | components/CountdownCard.tsx:77-166 | without a 2-D context nothing is offered and the popover is left as it was; otherwise a 1200 × 800 JPEG at quality 0.95 is offered, named by `DownloadName` and showing the export picture, and the popover closes |

## Left out

- Clock and date parsing: `new Date()` and `new Date(str).getTime()` are replaced by the integer instants `nowMs` and `targetMs`. The NaN that an unparseable date string gives is not modelled.
- Timers and listeners: the one-second `setInterval`, its `clearInterval`, and adding and removing the `mousedown` listener are not modelled. `Card.Tick` and `Card.MouseDown` model what one firing does.
- Floating point: the arithmetic of `calculateTimeRemaining` is on exact reals, so rounding of very large doubles is not modelled.
- Utils.FormatTimeNumber: the exponent form that `toString` uses for numbers of 10^21 and more is not modelled, because readings never reach it.
- CountdownCard.ToUpper: only ASCII letters are upper-cased, because the labels it is applied to are ASCII.
- Canvas rendering: pixels, `textAlign`, the `globalAlpha` of the brand line, JPEG encoding by `toDataURL`, and the synthetic link click are not modelled. The export is the sequence of draw commands plus the file name, size, type and quality offered.
- The canvas font shorthand is kept as a structured `CanvasFont` of weight, size and family. `CanvasFont.Shorthand` gives the string form.
- Locale formatting: the `toLocaleString('bn-BD')` target date on the picture is the parameter `targetLabel`, and the on-screen date and time lines are not modelled.
- Storage: the `localStorage` API and the `JSON.stringify`/`JSON.parse` internals are abstracted as the `Blob` and `Json` datatypes. `Array.isArray` does not check the shape of the elements, and neither does the model: a parsed array is taken as a list of events.
- `window.confirm` is the `confirmed` parameter of `ClearAll`.
- Presentation: the JSX markup, the Tailwind class strings (`getFontBtnClass`, the card styling), the on-screen `TimeUnit` component, and the delete button's call into the list are not modelled.
- Other components and services: the generative-API event source, the manual-add form (`components/ManualAddForm.tsx`) and the empty-state screen are not part of this model.
