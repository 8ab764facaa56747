# Kopek daily ledger — a Dafny model

The page keeps a list of daily records: at most one cash record and at most
one tips record per day. Two text fields hold today's cash and today's tips as additive
expressions such as `150+200+50`. Every edit of a field saves: today's old
records are dropped, and one record per non-empty field is written. Each
record holds the text and what the calculator adds it up to. The start-up
code fills the fields from today's records. The header cards show each
month's cash, tips and total.

The model has five modules:

- `Optional` — the `Option` type (JavaScript's `NaN` and `undefined`).
- `Calculator` — `calculateString` with the parts of JavaScript it relies
  on: `trim`, `parseInt` without a radix, `split('+')`, plus `join('+')` as
  split's inverse. These are pure functions with lemmas: the split
  homomorphism, a trailing `+` changes nothing, digit-free text sums to 0,
  and numbers joined with `+` sum up.
- `Keyboard` — the keydown handler's decision as a pure function
  `Keystroke(key, value)`. The `.` key appends one `+`; keys outside the
  list are prevented. The code tests `.`, although the comment above it
  says "space". The model follows the code.
- `Records` — `Transaction`, the filters and look-ups on the list, and
  the month sums as functions. The `Ledger` class holds the global
  `transactions` list. `Ledger.Save` is the body of `autoSave`: it
  reassigns the list and pushes records. `Ledger.MonthStats` is the
  `getMonthStats` loop.
- `Page` — the `Page` class holds the two fields and the ledger. It models
  `init` (restore the fields from today's records), the `input` event (save
  after every edit) and `handleCalcInput` (which changes the field's value
  and then saves).

The JavaScript field `type` is called `kind` here, because `type` is a
Dafny keyword. The date key of "today" and the month key of a date are
parameters: `today: string` and `monthOf: string -> string`.

## Model

| member | source | states |
|---|---|---|
| Calculator.LeadingSpace | script.js:32 | the number of white-space characters `trim` removes from the front: all of them are white space, and the next character is not |
| Calculator.TrailingSpace | script.js:32 | the same for the end of the string |
| Calculator.DigitPrefix | script.js:32 | the digits `parseInt` reads: the longest prefix made only of digits of the radix |
| Calculator.FirstPlus | script.js:31 | the position where `split('+')` cuts: a '+' with no '+' before it |
| Calculator.Split | script.js:31 | `split('+')` always yields at least one segment |
| Calculator.SplitPiecesNoPlus | script.js:31 | no segment of a split contains '+' |
| Calculator.JoinSplit | script.js:31 | joining the segments with '+' gives back the original string |
| Calculator.SplitJoin | script.js:31 | splitting a '+'-join of '+'-free pieces gives back the pieces |
| Calculator.SplitConcat | script.js:31 | the split of `a + "+" + b` is the split of `a` followed by the split of `b` |
| Calculator.SumByAppend | script.js:31-34 | the `reduce` sum over a concatenation is the sum of the two parts' sums |
| Calculator.CalculateBySplit | script.js:29-35 | the empty-string guard agrees with the split-and-sum path: "" gives 0 either way |
| Calculator.CalculateConcat | script.js:29-35 | split homomorphism: `calculateString(a + "+" + b) == calculateString(a) + calculateString(b)` for all strings |
| Calculator.TrailingPlusNeutral | script.js:31-34 | a trailing '+' does not change the value |
| Calculator.ParseIntWithoutDigits | script.js:32-33 | `parseInt` of text without a decimal digit is NaN |
| Calculator.SplitKeepsNoDigit | script.js:31 | the segments of digit-free text are digit-free |
| Calculator.SegmentWithoutDigits | script.js:32-33 | a segment without a decimal digit counts 0 |
| Calculator.SumByZero | script.js:31-34 | segments that each count 0 sum to 0 |
| Calculator.NoDigitsSumToZero | script.js:30-34 | the empty string, "+", "++" and every other digit-free text sum to 0 |
| Calculator.AllSegmentsNaNSumToZero | script.js:30-34 | a string whose every trimmed segment is NaN to `parseInt` (such as "x5", "a1+b2", "-+.5") sums to 0 |
| Calculator.DecimalFacts | script.js:32 | a decimal numeral is non-empty, all digits, has no leading zero, and `parseInt`'s digit value reads it back |
| Calculator.ParseMagnitudeOfDecimal | script.js:32 | the magnitude parser reads back the numeral of any natural number |
| Calculator.ParseIntOfDigits | script.js:32 | `parseInt` of text that starts with a digit is the magnitude its digits read as |
| Calculator.ParseIntOfNegated | script.js:32 | a '-' in front of such text negates the result |
| Calculator.ParseShown | script.js:32 | `parseInt` reads back the numeral of any integer, negative ones included |
| Calculator.TrimUnpadded | script.js:32 | `trim` leaves a string unchanged when it neither starts nor ends with white space |
| Calculator.ShowEnds | script.js:32 | a numeral neither starts nor ends with white space |
| Calculator.SegmentValueOfShown | script.js:32-33 | a segment holding the numeral of `n` counts exactly `n` |
| Calculator.ShowHasNoPlus | script.js:31 | a numeral contains no '+' |
| Calculator.CalculateShownSum | script.js:29-35 | typing the integers `xs` separated by '+' gives exactly their sum |
| Keyboard.AllowedKeysExactly | script.js:53-57 | the filter lets through exactly the ten digit keys and the eight listed keys |
| Keyboard.DotAlwaysPrevented | script.js:42-43 | '.' is always prevented and is not an allowed key |
| Keyboard.DotKey | script.js:44-48 | on '.', a non-empty value not ending in '+' gets exactly one '+' and a save; any other value is left as it is, with no save |
| Keyboard.DotNoDoublePlus | script.js:45-46 | the '.' rewrite makes a value end in "++" only when it already did |
| Keyboard.DotIdempotent | script.js:45-46 | a second '.' changes nothing and does not save |
| Keyboard.DotKeepsSum | script.js:45-46 | the '.' rewrite never changes what the field adds up to |
| Keyboard.OtherKeysOnlyFilter | script.js:53-58 | keys other than '.' never change the value and never save; they only decide whether the key is prevented |
| Records.OtherDays | script.js:68 | the filter keeps no record of the given day and never grows the list |
| Records.OnDay | script.js:68-87 | the records of one day all carry that date |
| Records.NewRecords | script.js:70-87 | every record a save pushes is dated today |
| Records.Find | script.js:123-124 | `find` gives nothing exactly when no record matches the day and kind; otherwise it gives a matching record from the list |
| Records.Ledger.constructor | script.js:13-20 | the list starts as the stored list |
| Records.Ledger.Save | script.js:68-87 | the new list is the old one without today's records, followed by the new records; other days' records are exactly as before; today's records are exactly the new ones |
| Records.Ledger.Push | script.js:72-86 | `push` appends one record at the end |
| Records.Ledger.MonthStats | script.js:144-153 | the loop's cash and tips equal the month's cash and tips sums over the list, and total is cash plus tips |
| Records.OtherDaysMembers | script.js:68 | a record survives the filter exactly when it was in the list and is dated another day |
| Records.OnDayMembers | script.js:68-87 | a record is among a day's records exactly when it is in the list with that date |
| Records.OtherDaysAppend | script.js:68 | filtering a concatenation filters each part |
| Records.OnDayAppend | script.js:68-87 | the same for the records of one day |
| Records.OtherDaysKeepsAll | script.js:68 | the filter keeps a list with no record of the day unchanged |
| Records.OnDayKeepsAll | script.js:68-87 | a list made only of the day's records is all of that day's records |
| Records.OnDayDropsAll | script.js:68-87 | a list with no record of the day has none of that day's records |
| Records.OtherDaysDropsAll | script.js:68 | the filter empties a list made only of the day's records |
| Records.FindFirst | script.js:123-124 | `find` returns the first matching record: when `ts[i]` matches and no earlier record does, it gives `ts[i]` |
| Records.FindAppend | script.js:123-124 | `find` on a concatenation returns the first part's match when there is one, else the second part's |
| Records.SaveKeepsOtherDays | script.js:68 | frame: after a save, the records of every other day are exactly those before, in the same order |
| Records.SaveReplacesToday | script.js:68-87 | after a save, today's records are exactly the new ones, and they come after every kept record |
| Records.NewRecordsShape | script.js:70-87 | a save writes one record per non-empty field, cash before tips, and no other kind |
| Records.NewRecordsFind | script.js:70-87 | among the records a save writes, the cash record exists exactly when the cash text is non-empty and carries that text and its sum; the same for tips |
| Records.SaveFindsToday | script.js:68-87 | after a save, looking up today's cash (or tips) record finds exactly the record that was written, or nothing when the field was empty |
| Records.SaveIdempotent | script.js:68-87 | saving twice with the same inputs leaves the same list as saving once |
| Records.SaveThenRestore | script.js:123-130 | after a save, the start-up look-up puts each non-empty saved text back in its field and leaves an empty field's current text alone |
| Records.OtherDaysKeepsOnePerDayAndKind | script.js:68 | the filter keeps "at most one record per day and kind" |
| Records.OnePerDayAndKindConcat | script.js:68-87 | two such lists, one with no record of the day and one only of that day, concatenate to such a list |
| Records.NewRecordsOnePerDayAndKind | script.js:70-87 | a save never writes two records of the same kind |
| Records.SaveKeepsOnePerDayAndKind | script.js:68-87 | a save keeps "at most one record per day and kind" |
| Records.MonthTotalsAppend | script.js:146-151 | a month's cash and tips sums over a concatenation are the sums over the parts |
| Records.MonthTotalsOutsideMonth | script.js:148 | records outside the month add nothing; an empty list gives zero cash and zero tips |
| Records.KindsSplitMonth | script.js:148-149 | each record of the month counts once, as cash when its kind is "cash" and as tips for any other kind, so cash plus tips is the sum of all the month's amounts |
| Records.SaveMonthTotals | script.js:144-153 | after a save, the month's figures are those of the other days plus today's sums when today falls in that month |
| Page.Page.constructor | script.js:115-130 | `init`: the ledger holds the stored list, and each field holds the raw text of today's record of its kind, or its initial text when there is none |
| Page.Page.AutoSave | script.js:63-87 | `autoSave` saves the two fields' texts, after which the list is in sync with the fields |
| Page.Page.OnInput | script.js:136-138 | an edit of one field changes only that field, then saves, leaving the list in sync |
| Page.Page.HandleCalcInput | script.js:38-59 | the field changes as `Keystroke` says; the list is saved exactly when the '.' rewrite appended; a list in sync stays in sync; the result is whether the key is prevented |

## Left out

- Persistence: `localStorage`, `JSON.parse`/`JSON.stringify`, `loadData` and `saveData` (script.js:13-25, 90). The stored list enters as a constructor argument. Stored data that is not a well-formed list is not modelled.
- The DOM: `getElementById`, event registration and `renderTabs` with its markup (script.js:64-65, 93, 97-98, 126-141, 158-181). Field values are class fields, and each event is a method. The browser's own insertion of a key it did not prevent shows up as the `OnInput` that follows.
- Dates: `getLocalISODate`, `monthsToShow`, `new Date(tx.date)` and the time zone (script.js:4-11, 101-113, 147-148). They are the parameters `today` and `monthOf`.
- Locale formatting: `toLocaleString`, `formatMoney` and `formatMoneyShort` (script.js:119-120, 155-156).
- Number precision: amounts are JavaScript doubles. Sums beyond 2^53 and `parseInt` of long digit runs lose precision. A run of more than about 309 digits parses to Infinity, and a text like "<huge>+-<huge>" then stores an amount of NaN, which `JSON.stringify` writes as null. The model uses unbounded integers, so none of this happens in it. `parseInt`'s `-0` is plain 0 here.
- Characters: JavaScript strings are UTF-16 code units; the model's strings are Unicode scalar values. Both `trim` and the key test only look at characters in the Basic Multilingual Plane, so this does not change any result.
- For '.', `preventDefault` runs twice (script.js:43 and 56-57). The model has one `prevented` flag, because a second call has no further effect.
