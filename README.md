# Bingo caller: a Dafny model of the operator console and the audience display

The repository is a two-page bingo tool. On the operator console
(app/page.tsx) the operator types a number and presses "Mostrar" (or Enter).
The page checks the number, clears the big ball, and reveals the number
after a short delay. The number is then appended to the history, and a
further delay ends the pop animation. The console can refuse repeats, shows
a few statistics (total, last number, the five most recent draws), and can
clear the history after a confirmation. The audience display
(app/resultado/page.tsx) receives a pushed history of calls such as "B7". It
groups them into the five columns B I N G O, each in draw order, and prints
every call without its letter, with a count under each heading.

Modules:

- `Wrappers`: `Option`, used for JavaScript's missing values (`undefined`, `NaN`).
- `Decimal`: the `parseInt` call that reads the input, and the decimal rendering of a number.
- `Labels`: the singular/plural count words of both pages.
- `Console`: the guards of `handleShow` (`Judge`) and the class `DrawConsole`, whose fields are the page's `useState` hooks. `handleShow`'s immediate part, its two `setTimeout` callbacks, `handleClear`, the buttons, the Enter key, the checkbox and the load effect are methods of that class. The module also holds the derived views, the saved-record defaults, and a ghost event log with its `Replay` specification.
- `Display`: the column filter `Bucket`, `GroupByLetter` (the source's loop, proved against `Bucket`), the cell text, the snapshot default, and the class `AudienceView` with its subscription callback and render.

Timers are explicit steps. Every accepted show queues one reveal callback,
and callbacks of equal delay run in the order they were queued. So
`pendingReveals` is a queue, oldest first, and `Reveal` takes its head.
Every reveal queues one settle callback, and `pendingSettles` counts
them. `window.confirm` is a `bool` argument. The outcome `RepeatWarning`
stands for the `alert`.

`DrawConsole.Valid()` keeps two facts. First, the history is the replay of
the event log. Second, the accepted numbers are the revealed ones followed by
the pending ones, so numbers are revealed in acceptance order. The lemma
`ReplayAfterLastReset` proves that the replay is what the last clear or load
left, followed by every number revealed since then, in order. The history
has no global "no duplicates" invariant, because the code does not keep
one. The repeat checkbox can be toggled at any time, and the Enter key
bypasses the button's guard (see Findings).

Three facts about the code that a reader might not expect:

- The console stores plain integers, with no letter, in local storage
  under `bingo-history` together with the repeat flag. It never calls the
  shared-document service.
- Repeats are refused only while the checkbox is off.
- Neither page has an operation that removes a single past call.

## Model

| member | source | states |
|---|---|---|
| `Decimal.ParseInt` | app/page.tsx:55 | `parseInt(number)`: a blank input is NaN, and a negative result only comes from a leading minus after the white space |
| `Decimal.ParseSigned` | app/page.tsx:55 | the sign step of `parseInt`: an empty text is NaN, a negative value needs a leading minus, a minus never gives a positive value, and a text starting with 1-9 always parses to a positive number |
| `Decimal.ParseUnsigned` | app/page.tsx:55 | the digits step of `parseInt`: a text that does not start with a decimal digit is NaN, and one starting with 1-9 parses to a positive number |
| `Decimal.TrimStart` | app/page.tsx:55 | parseInt's leading white-space skip: the result is a suffix, everything dropped is white space, and the result does not start with white space |
| `Decimal.DigitRun` | app/page.tsx:55 | the digit run parseInt reads is a prefix of digits of the radix that is followed by a non-digit or the end |
| `Decimal.ToDecimal` | app/page.tsx:227 | the rendering `{num}` of a drawn number: at least one decimal digit, and a leading zero only for 0 |
| `Decimal.DigitsValueOfToDecimal` | app/page.tsx:227 | reading the digits of a rendering back gives the rendered number |
| `Decimal.ParseIntOfToDecimal` | app/page.tsx:55 | `parseInt` returns n for the rendering of n followed by any text that does not start with a digit. The exception is "0" followed by x/X, which starts hexadecimal |
| `Decimal.ParseIntOfNegative` | app/page.tsx:55-57 | a leading minus gives the negated value, which the `num < 1` guard then rejects |
| `Decimal.ParseIntSkipsSpace` | app/page.tsx:55 | leading white space does not change the parse |
| `Labels.CountWord` | app/resultado/page.tsx:73 | "número" exactly when the count is 1, "números" otherwise |
| `Labels.TotalCaption` | app/page.tsx:315 | the overlay caption starts with "Total: " and ends in "s" exactly when the count is not 1 |
| `Labels.TotalCaptionUsesCountWord` | app/page.tsx:315 | the overlay caption "Total: n número(s)" uses the same plural rule as the audience columns |
| `Console.Judge` | app/page.tsx:55-65 | ignored exactly when the parse is NaN or below 1. Refused with the warning exactly when the number is valid, repeats are off and it is in the history. Started otherwise, with the parsed number |
| `Console.SaveRecord` | app/page.tsx:31-36 | the saved record always has both fields, so the load defaults never apply to it |
| `Console.LoadedNumbers` | app/page.tsx:22 | a stored record without `numbers` loads the empty history; otherwise the stored one |
| `Console.LoadedAllowRepeat` | app/page.tsx:23 | the loaded flag is true only when the record stores true; a missing flag loads false |
| `Console.LoadSavedRecord` | app/page.tsx:31-36 | loading the record the save effect writes gives back the same history and flag |
| `Console.ReplayAfterLastReset` | app/page.tsx:74-92 | the replayed history is what the last load or clear left, followed by every number revealed since then, in reveal order |
| `Console.ReplayWithoutReset` | app/page.tsx:74 | with no load or clear, the history is exactly the revealed numbers in order |
| `Console.LastNumber` | app/page.tsx:211 | "Último número" is absent ('-') exactly for the empty history, and otherwise is the last entry |
| `Console.Recent` | app/page.tsx:251 | `slice(-5)` has length min(5, n) and is the suffix of the history |
| `Console.ViewsAfterAppend` | app/page.tsx:206-251 | after an append the last number is the new one. The recent panel gains it at the end and drops its oldest entry once it holds five |
| `Console.LastIsEndOfRecent` | app/page.tsx:211-251 | the last-number statistic is the final entry of the recent panel |
| `Console.GlobalIndexAsWritten` | app/page.tsx:252 | `length - 5 + localIndex`: once five or more numbers are drawn it is the entry's index in the history; with fewer it is below the panel position itself |
| `Console.GlobalIndexAsWrittenMisses` | app/page.tsx:252 | for fewer than five draws, `length - 5 + localIndex` falls short of the entry's index in the history by 5 - n, so the two never agree |
| `Console.GlobalIndex` | app/page.tsx:252 | the corrected index `n - min(5, n) + localIndex` is a valid index of the history |
| `Console.RecentAtGlobalIndex` | app/page.tsx:251-252 | the recent panel's entry k is the history's entry at the corrected index |
| `Console.DrawConsole.constructor` | app/page.tsx:7-11 | empty input, nothing displayed, empty history, repeats off, not animating, no callback queued, and an empty event log, so `ReplayWithoutReset` applies to a console that is never loaded or cleared |
| `Console.DrawConsole.Load` | app/page.tsx:17-28 | nothing stored (or unparsable) changes nothing. A stored record sets the history and the flag through the defaults and leaves everything else as it was |
| `Console.DrawConsole.SetInput` | app/page.tsx:160 | only the input changes |
| `Console.DrawConsole.SetAllowRepeat` | app/page.tsx:181 | only the flag changes, at any time |
| `Console.DrawConsole.HandleShow` | app/page.tsx:54-70 | a show that is not started (invalid, or a refused repeat) changes no state. A started one clears the display, turns the animation on and queues the reveal of the number. The history, input and flag stay unchanged |
| `Console.DrawConsole.Start` | app/page.tsx:67-72 | the start step: the display is cleared, the animation turns on and the number is queued for reveal; history, input, flag and queued settles are unchanged |
| `Console.DrawConsole.Reveal` | app/page.tsx:72-81 | the oldest queued number is displayed and appended to the history as it is at that moment. The input becomes empty and a settle is queued. The flag and the animation state are unchanged |
| `Console.DrawConsole.Settle` | app/page.tsx:83-86 | the animation turns off; nothing else but the settle count changes |
| `Console.DrawConsole.HandleClear` | app/page.tsx:90-99 | confirmed: empty history and no display, with input, flag and queued callbacks untouched. Declined: no change |
| `Console.DrawConsole.ShowEnabled` | app/page.tsx:170 | `!number \|\| isAnimating` disables the button; when it is enabled and at most one show is in flight, no reveal or settle is pending |
| `Console.DrawConsole.ClearEnabled` | app/page.tsx:191 | the clear button is enabled exactly when there is a last number, that is, when the replayed history is not empty |
| `Console.DrawConsole.ClickShow` | app/page.tsx:168-174 | with an empty input or a running animation the button does nothing; otherwise it behaves exactly as `handleShow` |
| `Console.DrawConsole.PressKey` | app/page.tsx:101-105 | Enter runs `handleShow` without the button's guard; any other key changes nothing |
| `Console.DrawConsole.PressKeyGuarded` | app/page.tsx:101-105 | the corrected Enter path applies the button's guard. When at most one show is in flight, a number it accepts with repeats off is neither in the history nor queued |
| `Console.DrawConsole.ClickClear` | app/page.tsx:189-195 | the clear button does nothing on an empty history; otherwise it behaves as `handleClear` |
| `Console.EnterTwiceRecordsRepeat` | app/page.tsx:101-105 | two Enters before the first reveal, with repeats off, record the number twice |
| `Console.ShowOnce` | app/page.tsx:54-87 | one show run to completion leaves history [x], x displayed, an empty input and no animation |
| `Console.RepeatRefused` | app/page.tsx:62-65 | with repeats off, a number already in the history is refused and the history is unchanged |
| `Console.RepeatAllowed` | app/page.tsx:62-74 | with repeats on, a number already in the history is appended again, so the history grows by exactly one |
| `Display.Bucket` | app/resultado/page.tsx:22-26 | a column holds no more calls than the input, and every call in the column starts with the column's letter |
| `Display.Columned` | app/resultado/page.tsx:23-24 | the calls with a column are at most the whole input |
| `Display.GroupByLetter` | app/resultado/page.tsx:20-29 | the result has exactly the keys B I N G O, even for an empty input, and each key's list is the input's calls with that first letter, in input order |
| `Display.BucketCount` | app/resultado/page.tsx:22-26 | a call is in the column of its first letter as often as in the input, and in no other column |
| `Display.Dropped` | app/resultado/page.tsx:23-24 | an empty call, or one whose first character is not B I N G O, is in no column |
| `Display.ColumnSizes` | app/resultado/page.tsx:21-27 | the five column sizes add up to the number of calls that have a column, which is at most the input length |
| `Display.BucketOfConcat` | app/resultado/page.tsx:22-26 | grouping a longer history keeps each column's earlier calls first and in order |
| `Display.NumberOnly` | app/resultado/page.tsx:82 | `substring(1)`: the first character followed by the result is the call, and an empty call gives an empty string |
| `Display.CellRestoresCall` | app/resultado/page.tsx:81-82 | the column letter followed by a cell's text is the call in that column |
| `Display.Cells` | app/resultado/page.tsx:81-89 | one cell per call of the column, in the column's order, each the call without its letter |
| `Display.PushedNumbers` | app/resultado/page.tsx:12 | a pushed snapshot without `numbers` gives the empty history; otherwise the pushed one |
| `Display.ColumnOf` | app/resultado/page.tsx:63-73 | `groupedNumbers[letter] \|\| []`: the column carries its letter, a count equal to its number of cells and the count word for it; a missing key gives an empty column, a present one the cells of its list |
| `Display.AudienceView.constructor` | app/resultado/page.tsx:8 | the view starts with an empty history |
| `Display.AudienceView.OnSnapshot` | app/resultado/page.tsx:11-13 | each push replaces the whole history |
| `Display.AudienceView.Render` | app/resultado/page.tsx:62-93 | five columns in the order B I N G O. Each shows its letter, its size, the count word for that size, and the cells of exactly that letter's calls |

## Findings

| source | as written | input that shows it | evidently intended | confidence | as-written member | corrected member |
|---|---|---|---|---|---|---|
| app/page.tsx:101-105 | Enter calls `handleShow` directly, without the `!number \|\| isAnimating` guard of the button (line 170). The repeat check reads a history that the queued reveal has not yet appended to | repeats off, input "7", Enter twice within the 100 ms before the first reveal: the history becomes [7, 7] | Enter is refused while a show is animating, as the button is, so a repeat is never queued | not executed; medium | `Console.EnterTwiceRecordsRepeat` | `Console.DrawConsole.PressKeyGuarded` |
| app/page.tsx:252 | `globalIndex = drawnNumbers.length - 5 + localIndex` | a history of two draws: the first entry of the recent panel gets -3 instead of 0 | `length - min(5, length) + localIndex`, the entry's index in the history | not executed; low (it is used only as a React key, which stays distinct, so nothing visible goes wrong) | `Console.GlobalIndexAsWrittenMisses` | `Console.GlobalIndex` |

## Left out

- lib/bingoService.ts is not part of this model. It is network I/O and subscription plumbing over a managed document store. The audience display's subscribe/unsubscribe effect (app/resultado/page.tsx:10-18) is left out with it. Only the callback's state change is kept, as `AudienceView.OnSnapshot`.
- Local storage and `JSON.parse`/`JSON.stringify` (app/page.tsx:17-36) are browser I/O. `Load` takes the parsed record, or `None` when nothing is stored or the text does not parse. The save effect is modelled only as the record shape `SaveRecord`. Stored fields of the wrong JSON type are not modelled.
- Real timers and their timing are not modelled. The model assumes that callbacks of equal delay run in the order they were queued. It does not model how the 100 ms and 500 ms callbacks of different shows interleave in time; `Reveal` and `Settle` can be called in any order.
- DOM effects are left out: the `alert` (it is the `RepeatWarning` outcome), focus, the screen-reader announcements, the body scroll lock (app/page.tsx:39-52), the full-history overlay's open flag, the main render and the markup. app/layout.tsx and tailwind.config.js are styling and metadata only.
- `Decimal.ParseInt` is a simplification of ECMAScript's `parseInt`. Only the listed white-space characters are skipped; other Unicode space separators are not. "-0" reads as 0; both are rejected by the `< 1` guard. The browser's `type="number"` input filtering is not modelled.
- Drawn numbers are unbounded integers. JavaScript numbers above 2^53 lose precision, and parsing such a long decimal string is not modelled.
- Console.DrawConsole.Valid: it states no "history has no duplicates" invariant, because the code does not keep one: the checkbox can change at any time, and the Enter path can queue a repeat.
