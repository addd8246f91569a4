# LicenseHub core, modelled in Dafny

LicenseHub is a single-page tracker of licences, subscriptions and everyday
expenses. Each signed-in user has two tabs of records, work and personal. Both
are kept in the browser's local store along with a monthly income and a savings
goal. All of its logic lives in `js/app.js`. This project models that logic and
proves what it promises:

- **Records.** The record and its cost normalisation (`annualCost`,
  `monthlyCost`), and the days left until a renewal (`daysUntil`).
- **View.** The table filter of `renderTable` and its renewal badge.
- **Html.** `escHtml`.
- **Savings.** The savings plan of `updateStats`.
- **Breakdown.** `updateBreakdown`: one card per category, most expensive
  first. The `forEach` is a loop with its invariant.
- **Stats.** The rest of `updateStats`:
  - the per-currency totals and the converted monthly outgoings, as loops;
  - the balance and the yearly projection;
  - the renewals and the banner.
- **Store.** The browser store under its per-user keys, and the editing actions
  as methods of a class `AppState`: `saveLicense`, `confirmDelete`,
  `markAsPaid`, `saveIncome`, `saveSavingsConfig`, `switchTab`, `openModal`
  and `askDelete`.
- **Colors.** `hexToRgba`, `lightenHex` and `buildGradient`, with
  `parseInt(…, 16)`, `toString(16)` and `padStart` written out.
- **Theme.** The colour lists of the theme panel as a class `ThemeState`, with
  `addAccentColor`, `addBgColor` and `removeColor`.
- **Seqs, Text, Wrappers.** Support modules: `filter` and sums over sequences,
  ASCII case mapping, `includes` and `trim`, and `Option`.

Amounts are `real`. A JavaScript `null`, `undefined` or empty string is `""` (except a missing `name`, see below),
and a `NaN` from `parseFloat`/`parseInt` is `None`. Dates are day numbers, and
today's day number is a parameter.

## Model

| member | source | states |
|---|---|---|
| Records.CostValue | js/app.js:107 | `parseFloat(l.cost) \|\| 0`: an unparseable cost counts as zero, otherwise the cost itself |
| Records.MonthlyCost | js/app.js:112-117 | a non-recurring cycle costs nothing per month; an annual cost is twelve monthly costs; non-negative for a non-negative cost |
| Records.AnnualCost | js/app.js:106-111 | a recurring cost per year is twelve monthly costs; an annual or one-time cost counts once; non-negative for a non-negative cost |
| Records.CycleTable | js/app.js:106-117 | the normalisation cycle by cycle (monthly ×12, annual ÷12, one-time counted once per year and never per month), and a cost of `NaN` is zero both ways |
| Records.DaysUntil | js/app.js:120-125 | no date gives no number; otherwise today plus the result is the date, so past dates are negative |
| Records.ActiveRecords | js/app.js:194 | a record is kept iff it is stored and has status `active`, and each kept record as often as it is stored |
| Records.ActiveRecordsInOrder | js/app.js:194 | the active records stay in stored order |
| View.FilterRecords | js/app.js:372-380 | no more rows than records, and every shown row matches the search, the category and the status |
| View.FilterRecordsCorrect | js/app.js:372-380 | the shown rows are exactly the stored records that match search, category and status: in stored order, each as often as stored |
| View.EmptyQueryShowsAll | js/app.js:373-378 | an empty search and both drop-downs on "all" show every record |
| View.SearchIgnoresCase | js/app.js:368-376 | two searches equal after `toLowerCase` show the same rows |
| View.UrgencyOf | js/app.js:395-402 | no badge for an inactive record or one without a date; an overdue count is positive; a "this week" count is at most 7 and a "this month" count is 8 to 30 |
| View.UrgencyClassification | js/app.js:395-402 | a row is `overdue` iff the record is active and its date has passed, and `soon` iff it is active and due within 0..30 days; due "this week" iff within 0..7 days, "this month" iff within 8..30 days, no badge otherwise; every day count shown is the distance to the date |
| Html.EscHtml | js/app.js:448-452 | the escaped text holds no `<`, `>`, `"` or `'` and is at least as long as the input |
| Html.ReplaceAll | js/app.js:448-452 | no shorter for a non-empty replacement; every character of the result is a kept character other than the pattern, or one of the replacement |
| Html.EscHtmlAsWritten | js/app.js:448-452 | after the five replacements no `<`, `>`, `"` or `'` is left, and the text is no shorter |
| Html.AsWrittenIsEscHtml | js/app.js:448-452 | the five chained global replacements, `&` first, escape each character exactly once |
| Html.UnescapeEscHtml | js/app.js:448-452 | reading the escaped text back gives the input |
| Savings.MonthlyNeeded | js/app.js:256 | with a positive horizon, the monthly amount times the months is the target; otherwise zero |
| Savings.SavePercent | js/app.js:257 | with a positive income, the percentage times the income is 100 × the monthly amount; otherwise zero |
| Savings.Advise | js/app.js:278-291 | healthy iff the goal is reachable with a share of at most 20%; otherwise the names of the first three discretionary active records in order, or "review fixed costs" iff there are none |
| Savings.Plan | js/app.js:253-258 | `canSave` iff the balance covers the monthly amount; the plan combines the monthly amount, the percentage and the advice |
| Savings.SuggestionsAreActiveDiscretionary | js/app.js:281-284 | a suggestion names at most three records, each active and in Entretenimiento, Otro or Consumibles |
| Savings.WorkedExample | js/app.js:253-258 | 1200 over 12 months on an income of 1000 with 700 left is 100 a month, 10%, reachable and healthy |
| Breakdown.CategoryKey | js/app.js:342 | never empty: the record's category, or `Otro` when it has none |
| Breakdown.IndexOfCategory | js/app.js:343 | -1 or the position of a card of that category |
| Breakdown.AppendKeepsTally | js/app.js:343-345 | a record of a new category opens a card at the end and keeps the map equal to the per-category totals |
| Breakdown.UpdateKeepsTally | js/app.js:344-345 | a record of a known category adds its annual cost and one to that card only, keeping the map equal to the totals |
| Breakdown.AddRecord | js/app.js:341-346 | one step of the `forEach` takes the map of a prefix to the map of the prefix one record longer |
| Breakdown.Tally | js/app.js:340-346 | the map holds one card per category present; each card has its category's annual cost and count (at least 1); all counts add up to the number of records |
| Breakdown.SortByCost | js/app.js:348 | the sorted cards are a permutation of the cards |
| Breakdown.SortByCostCounts | js/app.js:348 | the sort keeps the sum of the counts |
| Breakdown.SortByCostFacts | js/app.js:348 | the sort is a permutation, most expensive first, keeps the counts and keeps categories distinct |
| Breakdown.CategoryBreakdown | js/app.js:338-348 | the cards are sorted by descending cost and have distinct categories; each holds its category's annual cost and record count; every active record's category (or `Otro`) has a card; the counts add up to the active records |
| Stats.CurrencyKey | js/app.js:200 | `USD` for a record without currency; otherwise a text as long as the currency written |
| Stats.CurrencyKeyLetters | js/app.js:200 | a written currency is grouped under its ASCII upper-case spelling, letter by letter |
| Stats.AddKeepsLine | js/app.js:199-202 | one line of the map after adding a record's amount equals that currency's total over the longer prefix |
| Stats.AddKeepsGroups | js/app.js:199-203 | adding a record's amount under its upper-cased currency keeps the map equal to the per-currency totals |
| Stats.AddGrouped | js/app.js:199-202 | one turn of the `forEach` takes one of the maps of a prefix to the map of the prefix one record longer |
| Stats.GroupByCurrency | js/app.js:196-203 | the two maps have one key per currency of the active records, holding that currency's annual and monthly totals |
| Stats.ConvertedMonthly | js/app.js:232-235 | the monthly cost times 20 for a currency written exactly `USD`, the monthly cost otherwise |
| Stats.OnlyExactUsdIsConverted | js/app.js:232-235 | the rate of 20 applies iff the currency is exactly `USD`; otherwise the cost is unchanged |
| Stats.LowercaseUsdGroupedButNotConverted | js/app.js:200-235 | a record written in `usd` is grouped under `USD` but is not converted |
| Stats.MonthlyOutgoings | js/app.js:229-243 | the totals are the sums of the converted monthly costs over all active records and over the non-daily ones |
| Stats.OutgoingsSplit | js/app.js:237-242 | all outgoings are the projected ones plus the daily ones |
| Stats.ProjectedYear | js/app.js:250-251 | twelve monthly balances plus the daily outgoings of eleven of those months given back, since daily costs are charged once |
| Stats.ProjectionCountsDailyOnce | js/app.js:246-251 | the yearly projection is 12 × income − 12 × projected outgoings − the daily outgoings counted once |
| Stats.NoDailyProjectsTwelveBalances | js/app.js:246-251 | without daily records the projection is twelve times the balance |
| Stats.ProjectedAtMostTotal | js/app.js:229-243 | with non-negative costs, the projected outgoings are non-negative and at most all outgoings |
| Stats.Renewals | js/app.js:205-208 | no more renewals than active records, and each renewal is due within 0..30 days |
| Stats.RenewalsAreSoonRows | js/app.js:205-208 | a record counts as a renewal iff it is active and due within 0..30 days, i.e. iff its table row is marked `soon` |
| Stats.RenewalBanner | js/app.js:302-314 | the banner is hidden iff there are no renewals; otherwise it shows the count, the first up to three names in order and whether more follow |
| Stats.UpdateStats | js/app.js:192-318 | the dashboard `DashboardOf` describes: currency maps, outgoings, balance, projection, plan, counts, renewals, banner and a breakdown whose cards hold the per-category totals and whose counts add up to the active records |
| Store.UserScope | js/app.js:63 | never empty; the uid itself when signed in |
| Store.KeyTextInjective | js/app.js:62-65 | two store keys have the same text iff they are the same entry: the tabs, the users and the records, income and goal never share an entry |
| Store.IndexOf | js/app.js:156 | -1 iff no record has the id; otherwise the first position that has it |
| Store.WithoutId | js/app.js:561 | the kept records are exactly those without the id, each as often as before |
| Store.WithoutIdIsSubsequence | js/app.js:561 | the kept records stay in stored order |
| Store.WithoutAbsentId | js/app.js:559-561 | deleting an id no record has changes nothing |
| Store.Validate | js/app.js:507-514 | the first failing check in the order name, category, cost; no error iff the trimmed name and the category are non-empty and the cost parses |
| Store.BlankNameRefused | js/app.js:508-512 | a name of white space only is refused as missing |
| Store.BuildRecord | js/app.js:516-531 | the saved record has the given id and a parsed cost; name, vendor, payment method and notes are the trimmed inputs, the name non-empty; every other field is the form's |
| Store.StepFor | js/app.js:165-174 | a year for an annual record; a month for a monthly one or any other cycle |
| Store.Paid | js/app.js:162-176 | only the renewal date changes; it moves one step of the record's cycle along the calendar |
| Store.SaveResult | js/app.js:512-540 | what saving reports: a refusal iff the form is invalid; an in-place update iff an edited record is found; a missing edit target; or an appended record |
| Store.LicensesAfterSave | js/app.js:533-540 | a new record is appended after the list; an edit replaces the first record with the edited id and keeps every other one; an edit whose record is gone leaves the list unchanged |
| Store.SaveLicenseShape | js/app.js:533-540 | an edit keeps length and ids and changes only the edited position; a new record is appended with the fresh id |
| Store.PaidKeepsIndex | js/app.js:154-176 | after a payment the same id is found at the same position |
| Store.AppState.constructor | js/app.js:32 | the open tab is the one kept in the session, or `work`; the session value is kept |
| Store.AppState.LoadLicenses | js/app.js:67-71 | the stored list of the tab for the current user, or `[]` when nothing is stored or it does not parse |
| Store.AppState.Records | js/app.js:67-71 | the stored list of the open tab for the current user, or `[]` when nothing is stored or it does not parse |
| Store.AppState.Income | js/app.js:132-135 | the stored number; 0 when nothing is stored or the stored text is not a number |
| Store.AppState.Goal | js/app.js:142-147 | the stored goal when it parses; otherwise target 0 within 12 months |
| Store.AppState.SaveLicenses | js/app.js:73-75 | writes the open tab's list for the current user only; reading it back gives the list; the other tab is untouched |
| Store.AppState.SwitchTab | js/app.js:39-41 | the open tab becomes the chosen one and is remembered in the session; nothing else changes |
| Store.AppState.OpenModal | js/app.js:457-500 | only the edited id changes |
| Store.AppState.SaveLicense | js/app.js:507-546 | an invalid form changes nothing; a valid one writes the list `LicensesAfterSave` describes under the open tab's key and no other key, reports what `SaveResult` describes, closes the editor and leaves income and goal alone |
| Store.AppState.AskDelete | js/app.js:551-554 | only the delete target changes |
| Store.AppState.ConfirmDelete | js/app.js:559-565 | without a target nothing changes; otherwise the open tab's key, and no other, is rewritten without exactly the records of the target id, and the dialog closes |
| Store.AppState.MarkAsPaid | js/app.js:154-181 | an unknown id or a record without a renewal date changes nothing; otherwise only that record's renewal date moves one step, only the open tab's key is rewritten and nothing else changes |
| Store.AppState.SaveIncome | js/app.js:136-140 | stores the amount under the user's income key; reading it back gives the amount or 0 |
| Store.AppState.SaveSavingsConfig | js/app.js:886-896 | saves iff both target and months parse; only the user's goal key is then rewritten, with exactly them; otherwise nothing changes |
| Store.AppState.Refresh | js/app.js:192-318 | every figure `DashboardOf` describes, for the open tab's records, the stored income and the stored goal |
| Colors.ParseIntHex | js/app.js:663-665 | `NaN` iff the text does not start with a hexadecimal digit; otherwise the value of its leading run of hexadecimal digits, below 16 to the power of the length |
| Colors.ParseHexText | js/app.js:676 | `parseInt(n.toString(16), 16) == n` for every non-negative integer |
| Colors.ByteDigits | js/app.js:676 | a byte is written as exactly two lower-case digits, high digit first |
| Colors.ChannelOfColor | js/app.js:663-665 | on `#` and six hexadecimal digits, each channel is read as the byte its digit pair spells |
| Colors.RgbHexRoundTrip | js/app.js:676 | writing three bytes gives a lower-case colour whose channels read back as those bytes |
| Colors.RgbHexOfColor | js/app.js:669-677 | writing the bytes of a lower-case colour gives the colour back |
| Colors.LightenHexSpec | js/app.js:669-677 | lightening a well-formed colour by a non-negative amount gives `#` and six lower-case digits; each channel is `min(255, c + amount)` of the original |
| Colors.LightenHex | js/app.js:669-677 | the result starts with `#` and has at least seven characters |
| Colors.HexToRgba | js/app.js:662-667 | the text starts with `rgba(`, ends with `)`, and the alpha stands right before the closing parenthesis |
| Colors.HexToRgbaSpec | js/app.js:662-667 | on a well-formed colour, the text is `rgba(` with the three byte values in decimal and the alpha |
| Colors.BuildGradient | js/app.js:640-643 | one colour is drawn from that colour to itself; any other list is drawn as given |
| Colors.SingleColourDuplicated | js/app.js:640-643 | one colour is drawn as the two-stop gradient from that colour to itself |
| Theme.AddColor | js/app.js:729-741 | the list grows by the new colour at the end iff it held fewer than 5, and keeps its prefix |
| Theme.SpliceStart | js/app.js:746 | `splice`'s start: inside the list as given, negatives count from the end, clamped to the list |
| Theme.RemoveColorAt | js/app.js:743-755 | a list of one colour or none is left alone; otherwise at most one colour goes |
| Theme.RemoveAtPosition | js/app.js:746 | removing at a position inside the list drops exactly that colour and keeps the rest in order |
| Theme.RemoveFromEnd | js/app.js:746 | a negative index counts back from the end |
| Theme.RemovePastEnd | js/app.js:746 | an index past the end removes nothing |
| Theme.EditorsKeepBounds | js/app.js:729-755 | no button takes a list beyond 5 colours or below 1 |
| Theme.ThemeState.constructor | js/app.js:593-611 | the state starts as the default theme, whose lists hold 1 to 5 colours |
| Theme.ThemeState.AddAccentColor | js/app.js:729-734 | the notice shows iff the list is full; otherwise `#a78bfa` is appended; only the accent list changes in this model (the angle the preview re-reads from the slider is left out); the bounds are kept |
| Theme.ThemeState.AddBgColor | js/app.js:736-741 | the notice shows iff the list is full; otherwise `#06b6d4` is appended; only the background list changes in this model (the angle the preview re-reads from the slider is left out); the bounds are kept |
| Theme.ThemeState.RemoveColor | js/app.js:743-755 | only the chosen list changes in this model, as `RemoveColorAt` describes (the angle the preview re-reads from the slider is left out); the bounds are kept |
| Text.Lower | js/app.js:368 | same length; each upper-case ASCII letter is moved down by 32 to its lower-case letter and every other character is kept |
| Text.Upper | js/app.js:200 | same length; each lower-case ASCII letter is moved up by 32 to its upper-case letter and every other character is kept |
| Text.Trim | js/app.js:508 | the result is a contiguous slice of the input, starting after its leading white space, with no white space at either end |
| Text.TrimDropsOnlySpaces | js/app.js:508 | everything before and everything after that slice is white space, so the slice ends exactly where the trailing white space begins |
| Text.ContainsAtOffset | js/app.js:374-376 | `includes` holds iff the search text occurs at some offset |
| Text.TrimEmptyIffBlank | js/app.js:508 | the trimmed text is empty iff the text is all white space |

## Left out

- Rendering is not modelled: the DOM, markup templates, toasts, dialogs opening and closing, focus and `setTimeout`. `renderTable`'s rows, `renderCurrencyLines` and `updateTabCounts` write only markup or counts into the page.
- Firebase sign-in is not modelled; the signed-in uid is a field of `AppState`.
- `localStorage` is three maps in `AppState`, one per kind of entry; the `lh_tab` entry of `sessionStorage` is the field `sessionTab`. `JSON.parse`/`JSON.stringify` are not modelled: a stored value is either decoded or `Malformed`. JSON values of the wrong shape and `sessionStorage` texts other than the two tab names are not modelled; among them a stored record without a `name`, on which the search of `renderTable` (`l.name.toLowerCase()`, unguarded unlike vendor and category) throws instead of matching.
- `generateId` uses the clock and randomness. The fresh id is a parameter of `SaveLicense`.
- The clock and the calendar: today's day number is a parameter. `markAsPaid`'s month and year steps are a calendar function passed in (`Step`, day number) → day number. `Date` parsing, `toISOString`, time zones and invalid date strings are not modelled.
- Floating point: amounts are exact `real`s, and `toLocaleString`/`toFixed` formatting is not modelled.
- Colors.ParseIntHex: models `parseInt(…, 16)` only on text that starts with its digits. Leading white space, a sign and a `0x` prefix are not modelled; `lightenHex` and `hexToRgba` never produce them from `#rrggbb` slices.
- Colors.ParseHexText: stated for non-negative integers only; the channels it serves are never negative.
- Colors.LightenHex: its own contract states only the shape of the text; the channel values are stated by `LightenHexSpec` for well-formed colours.
- Colors.HexToRgba: the alpha is taken as the text the template literal prints for it, since number-to-text of floats is not modelled.
- Text.Lower: ASCII letters only; full Unicode case mapping is not modelled.
- Text.Upper: ASCII letters only; full Unicode case mapping is not modelled.
- Text.Trim: removes the common ASCII and Latin-1 white-space characters, not every Unicode white-space character. Its own contract does not say where the slice ends; `TrimDropsOnlySpaces` states that the dropped characters are all white space.
- Breakdown.SortByCostFacts: the JavaScript sort with comparator `b.cost - a.cost` is modelled as a stable insertion sort. `Array.prototype.sort` is required to be stable since ECMAScript 2019, so among equal costs this is the order the engine gives too.
- Breakdown.CategoryBreakdown: a JavaScript object keeps integer-like keys first. That key order is not modelled; the map keeps categories in order of first appearance, and only the sort's order is stated.
- Stats.GroupByCurrency: the same object-key order is not modelled for the currency maps, which are Dafny `map`s.
- Theme.ThemeState.constructor: `{ ...DEFAULT_THEME }` copies only the outer object, so `push` and `splice` also change the arrays of `DEFAULT_THEME`. This aliasing is not modelled; the lists are values.
- Theme loading and display are not modelled: `loadTheme`, the presets, `applyThemeToDOM`, `buildMesh`, `syncPanelUI`, `renderColorRows`, `onColorChange`, and the preview functions that read the angles from the page.
- The seed data, `TAB_CONFIG`, `CAT_CONFIG`/`getCatIcon`, `CYCLE_LABEL`, `formatDate` and the light/dark colour mode are display data and are not modelled.
- `closeModal` and `closeConfirm` are folded into `SaveLicense` and `ConfirmDelete`, which clear the edited id and the delete target themselves.
