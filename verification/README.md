# sulomon in Dafny

A model of the logic inside sulomon, an iOS app for logging drinks. The app's
logic lives in SwiftUI views; this project states it as functions over
immutable data and proves what the screens promise:

- **Data** (`data.dfy`): the kinds of drink and their raw names, the
  intoxication feelings with raw values, labels and emoji, people, drink
  records, and the record initialiser's defaults.
- **Dashboard** (`dashboard.dfy`):
  - the sobriety streak;
  - the drinking days of the displayed month and the month grid;
  - month paging;
  - the tolerance estimate in soju bottles and its message band;
  - the "best mate" tally.
- **EntryForm** (`entry_form.dfy`), the second step of recording a drink:
  - brand and unit preset tables, and the default strength per kind;
  - the effective strength and the readiness of steps 1 to 3;
  - per-unit and total pure alcohol;
  - numeric text fields, where a comma is read as the decimal point, blanks
    are trimmed, blank text clears the value and junk is ignored;
  - preset taps, feeling and companion toggles, and the lifecycle handlers;
  - the record a save writes, and the HealthKit flag.
- **People** (`people.dfy`): adding a person by trimmed name, swipe deletion,
  and a person's drinks newest first, with the meeting count, the last meeting
  and the favourite kind.
- **History** (`history.dfy`):
  - the record card's text;
  - the detail page's amount and alcohol;
  - swipe deletion;
  - date edits and the HealthKit re-sync guard.
- Support modules:
  - `calendar.dfy`: proleptic Gregorian civil dates, day numbers, weekdays
    and month arithmetic.
  - `text.dfy`: `trimmingCharacters`, `Double(String)` for plain decimals,
    and `"%.0f"`/`"%.1f"` rendering, with round trips between them.
  - `seqs.dfy`: removal at an `IndexSet` of offsets, and sorting by a key.
  - `option.dfy`: Swift optionals.

Quantities are exact `real`s. "Now" is a parameter wherever the app reads the
clock. UUIDs are supplied by the caller.

The best mate's count is the number of list entries: a person listed twice in
one record counts twice (`DashboardView.swift` 348-353). `max(by:)` over a
dictionary has no defined order, so the model promises only maximality.

## Model

| member | source | states |
|---|---|---|
| Data.AllAlcoholTypes | sulomon/Data.swift:26-36 | `allCases` has exactly eight pairwise-distinct kinds, soju first and etc last |
| Data.AllAlcoholTypesComplete | sulomon/Data.swift:26-36 | every kind appears in `allCases` |
| Data.AlcoholTypeFromRaw | sulomon/Data.swift:26-34 | a decoded raw name is the raw name of the kind it decodes to |
| Data.AlcoholTypeRawRoundTrip | sulomon/Data.swift:26-34 | decoding a kind's raw name gives the kind back |
| Data.FeelingFromRaw | sulomon/Data.swift:40-45 | exactly the raw values 1 to 5 decode, each to the feeling with that raw value |
| Data.FeelingRawRoundTrip | sulomon/Data.swift:40-45 | decoding a feeling's raw value gives the feeling back |
| Data.AllFeelings | sulomon/Data.swift:40-45 | five feelings whose raw values are 1..5, strictly increasing from fine to wasted |
| Data.AllFeelingsComplete | sulomon/Data.swift:40-45 | every feeling appears in `allCases` |
| Data.FeelingLabelsDistinct | sulomon/Data.swift:47-65 | label and emoji are total, and no two feelings share a label or an emoji |
| Data.NewPerson | sulomon/Data.swift:20-23 | the new person has the given id and name; the name defaults to "알 수 없음" |
| Data.NewPersonHasNoDrinks | sulomon/Data.swift:16-18 | a person no record lists has no drinks: the inverse relationship starts empty |
| Data.DrinksOf | sulomon/Data.swift:16-18 | a person's drinks are exactly the records that list the person |
| Data.NewDrinkRecord | sulomon/Data.swift:110-122 | every argument is stored unchanged in its field |
| Data.NewDrinkRecordDefaults | sulomon/Data.swift:95-109 | the omitted fields default to kind etc, no people, no brand or memo, not synced, no feeling |
| Data.TypeName | sulomon/PeopleView.swift:239 | a missing kind reads as "기타"; a stored kind's name decodes back to it |
| Data.PureAlcoholNonNegative | sulomon/HistoryView.swift:348-353 | non-negative amounts give non-negative pure alcohol |
| Data.PureAlcoholOfIncompleteRecord | sulomon/HistoryView.swift:348-353 | a record missing units, volume or strength holds no alcohol |
| Calendar.DaysInMonth | sulomon/DashboardView.swift:215 | a month has 28 to 31 days; February has 29 exactly in leap years |
| Calendar.NextDateIsOneDayLater | sulomon/DashboardView.swift:226 | the next calendar day has the next day number |
| Calendar.AddDaysCounts | sulomon/DashboardView.swift:78-81 | adding n days moves the day number by exactly n |
| Calendar.DayNumberIsChronological | sulomon/DashboardView.swift:78-81 | an earlier date has a smaller day number |
| Calendar.WeekdayAdvances | sulomon/DashboardView.swift:220 | the weekday of the next day is the following weekday, Saturday wrapping to Sunday |
| Calendar.NewYear2026IsThursday | sulomon/DashboardView.swift:220 | 2026-01-01 is a Thursday (weekday 5, Sunday being 1) |
| Calendar.AddMonths | sulomon/DashboardView.swift:233 | adding n months moves the month index by n and keeps the day, clamped to the month's last day |
| Calendar.AddMonthsRoundTrip | sulomon/DashboardView.swift:233 | n months forward and n back return to the same year and month |
| Dashboard.Streak | sulomon/DashboardView.swift:76-77 | the streak is 0 without a latest record or without its timestamp |
| Dashboard.StreakCountsDays | sulomon/DashboardView.swift:78-82 | n calendar days after the record's day, the streak is n whatever the times of day; 0 for a record from earlier today |
| Dashboard.StreakSign | sulomon/DashboardView.swift:78-82 | the streak is positive, zero or negative exactly when the record's day is before, on or after today |
| Dashboard.DrinkingDays | sulomon/DashboardView.swift:123-131 | d is a drinking day iff some record in the displayed month has day of month d; a missing timestamp counts as now |
| Dashboard.DrinkingDaysInRange | sulomon/DashboardView.swift:123-131 | every drinking day is a day of the displayed month |
| Dashboard.OtherMonthsIgnored | sulomon/DashboardView.swift:124-126 | a record outside the displayed month adds no drinking day |
| Dashboard.FirstOfMonth | sulomon/DashboardView.swift:216 | the first of the month is day 1 of the same month |
| Dashboard.AddDaysWithinMonth | sulomon/DashboardView.swift:225-227 | within a month, adding days only moves the day of month |
| Dashboard.CalendarGrid | sulomon/DashboardView.swift:214-230 | first weekday − 1 empty cells, then day d of the month at position lead + d − 1; length lead + days in month |
| Dashboard.GridCellsInMonth | sulomon/DashboardView.swift:225-227 | the grid's d-th date is day d of the displayed month |
| Dashboard.ChangeMonth | sulomon/DashboardView.swift:232-236 | paging moves the month index by the step, keeps the time of day, and keeps the day unless the target month is shorter |
| Dashboard.ChangeMonthRoundTrip | sulomon/DashboardView.swift:232-236 | paging forward then back returns to the displayed month |
| Dashboard.WithFeeling | sulomon/DashboardView.swift:247-248 | the filter keeps exactly the records with the given feeling |
| Dashboard.ToleranceBasis | sulomon/DashboardView.swift:247-251 | the basis is the moderate records when there are any, otherwise the light ones |
| Dashboard.ToleranceBasisMembers | sulomon/DashboardView.swift:247-250 | the basis holds exactly the moderate records if there are any, else exactly the light ones |
| Dashboard.ToleranceBasisEmpty | sulomon/DashboardView.swift:250-251 | the basis is empty iff no record is moderate or light |
| Dashboard.TotalAlcoholNonNegative | sulomon/DashboardView.swift:253-258 | the summed pure alcohol is non-negative for non-negative amounts |
| Dashboard.TotalAlcoholAppend | sulomon/DashboardView.swift:253-258 | the total of two lists together is the sum of their totals |
| Dashboard.TotalAlcoholOfNone | sulomon/DashboardView.swift:253-258 | records holding no alcohol add up to 0 |
| Dashboard.EstimatedSojuCapacity | sulomon/DashboardView.swift:251 | the estimate is 0 without a basis |
| Dashboard.CapacityIsMean | sulomon/DashboardView.swift:253-264 | estimate × one bottle (360 × 0.16 mL) × basis size equals the basis's total pure alcohol, so the estimate is the mean in bottles |
| Dashboard.CapacityNonNegative | sulomon/DashboardView.swift:253-264 | with non-negative amounts the estimate is never negative |
| Dashboard.CapacityExample | sulomon/DashboardView.swift:246-265 | moderate evenings of one and three bottles of 16% soju estimate two bottles |
| Dashboard.Band | sulomon/DashboardView.swift:267-277 | "need more data" iff the estimate is 0; the other bands lie below 1, in [1, 2) and at 2 or more |
| Dashboard.BandCovers | sulomon/DashboardView.swift:267-277 | every non-negative estimate falls in the band its thresholds name |
| Dashboard.BandIsMonotone | sulomon/DashboardView.swift:267-277 | over positive estimates, a larger estimate never lands in a lower band |
| Dashboard.MessagesDistinct | sulomon/DashboardView.swift:268-276 | different bands show different messages |
| Dashboard.Message | sulomon/DashboardView.swift:267-277 | every band has a non-empty sentence |
| Dashboard.ToleranceMessage | sulomon/DashboardView.swift:246-277 | the `message` sentence asks for more records exactly when the estimate is 0, and always does without a basis |
| Dashboard.ToleranceCard | sulomon/DashboardView.swift:288-327 | the card shows the bottle count and the sentence only for a positive estimate; for any other estimate, a negative one included, it shows the not-enough-data text; the record-more sentence never appears on the card |
| Dashboard.CardBottlesReadBack | sulomon/DashboardView.swift:289-292 | the card's one-decimal bottle count reads back as the estimate rounded to tenths |
| Dashboard.Occurrences | sulomon/DashboardView.swift:348-353 | a person's count is 0 exactly when no record lists them |
| Dashboard.OccursWhenListed | sulomon/DashboardView.swift:348-353 | anyone listed in some record has a positive count |
| Dashboard.NoPeopleNoOccurrences | sulomon/DashboardView.swift:348-353 | when no record lists anybody, every count is 0 |
| Dashboard.Tally | sulomon/DashboardView.swift:350-352 | each listed person's count rises by the number of times they are listed; counts stay positive |
| Dashboard.CountOccurrences | sulomon/DashboardView.swift:346-354 | the tally maps every person to their number of list entries across all records |
| Dashboard.MaxCount | sulomon/DashboardView.swift:357-359 | the chosen key has a count no other key exceeds |
| Dashboard.BestMate | sulomon/DashboardView.swift:345-361 | nil iff no record lists anybody; otherwise the count is the person's occurrences, positive and at least anyone else's |
| EntryForm.Presets | sulomon/RecordStep2View.swift:50-82 | only soju, beer and fruit soju have brand presets; branded entries with positive strength, then "기타" with no brand and the current strength, or the first brand's while that is 0 |
| EntryForm.PresetTitlesDistinct | sulomon/RecordStep2View.swift:50-82 | no two brand presets of a list share a title |
| EntryForm.UnitPresets | sulomon/RecordStep2View.swift:91-137 | every kind has fixed units of positive whole mL, then the single `isOther` entry "기타", whose volume is the current one or the first unit's while that is 0 |
| EntryForm.UnitTitlesDistinct | sulomon/RecordStep2View.swift:91-137 | no two unit presets of a list share a title |
| EntryForm.DefaultPercent | sulomon/RecordStep2View.swift:181-188 | a default strength exists exactly for somac, wine and liquor, and is never negative |
| EntryForm.PresetsOrDefault | sulomon/RecordStep2View.swift:181-188 | kinds with brand presets have no default strength |
| EntryForm.NewForm | sulomon/RecordStep2View.swift:139-153 | a fresh form carries the kind, strength and brand from step 1; nothing else is selected or entered |
| EntryForm.EffectivePercent | sulomon/RecordStep2View.swift:172 | the strength in use is the entered one when nonzero, else the kind's default |
| EntryForm.HasPercentIffNonzero | sulomon/RecordStep2View.swift:158 | "has a percent" iff the effective strength is nonzero |
| EntryForm.IsStep1Ready | sulomon/RecordStep2View.swift:157-163 | step 1 is ready iff the effective strength is nonzero and, for kinds with presets, a preset is selected |
| EntryForm.ShouldShowStep2 | sulomon/RecordStep2View.swift:165 | step 2 opens only with a strength in use |
| EntryForm.ShouldShowStep3 | sulomon/RecordStep2View.swift:167-169 | step 3 needs a strength in use and a positive amount |
| EntryForm.Step3NeedsStep2 | sulomon/RecordStep2View.swift:165-169 | step 3 shows only with step 2 and a positive amount |
| EntryForm.AlcoholPerUnit | sulomon/RecordStep2View.swift:176-179 | alcohol per unit is volume × effective strength / 100, not negative for non-negative inputs |
| EntryForm.TotalPureAlcohol | sulomon/RecordStep2View.swift:171-174 | the total is units × alcohol per unit, not negative for non-negative inputs |
| EntryForm.TwoBottlesOfSoju | sulomon/RecordStep2View.swift:171-179 | two 360 mL bottles at 16% are 57.6 mL per unit and 115.2 mL in total |
| EntryForm.WineUsesDefault | sulomon/RecordStep2View.swift:171-188 | wine entered without strength is counted at 12% |
| EntryForm.ReadNumber | sulomon/RecordStep2View.swift:372-377 | blank text (after commas become points) clears the field; non-blank text is parsed exactly when `Double` accepts the normalised text, and to that value |
| EntryForm.Apply | sulomon/RecordStep2View.swift:373-377 | a number sets the value, blank sets the cleared value, junk keeps the current one |
| EntryForm.ReadFormatWhole | sulomon/RecordStep2View.swift:458 | a "%.0f" text reads back as the value rounded to a whole number |
| EntryForm.ReadFormatOneDecimal | sulomon/RecordStep2View.swift:364-378 | a "%.1f" text reads back as the value rounded to tenths |
| EntryForm.PercentText | sulomon/RecordStep2View.swift:364-370 | the strength field is empty exactly when no strength is in use |
| EntryForm.PercentTextEdited | sulomon/RecordStep2View.swift:371-377 | typing strength: a number sets it, blank sets 0, junk changes nothing; nothing else in the form changes |
| EntryForm.PercentFieldRoundTrip | sulomon/RecordStep2View.swift:364-378 | committing the strength text as shown stores the effective strength rounded to tenths (0 stays 0) |
| EntryForm.CommaDecimalAccepted | sulomon/RecordStep2View.swift:372 | " 16,5" typed into the strength field gives 16.5 |
| EntryForm.TrimExample | sulomon/RecordStep2View.swift:372 | " 16.5" trims to "16.5" |
| EntryForm.UnitCountTextEdited | sulomon/RecordStep2View.swift:412-418 | typing the amount: a number sets it, blank sets 0, junk changes nothing; nothing else changes |
| EntryForm.AddHalfUnit | sulomon/RecordStep2View.swift:426-427 | "+0.5" adds exactly 0.5 units and changes nothing else |
| EntryForm.HalfUnitTaps | sulomon/RecordStep2View.swift:426-427 | n taps add n halves |
| EntryForm.ParseManualUnitML | sulomon/RecordStep2View.swift:209-215 | the manual volume parses iff the field reads as a number, to that number; blank gives nil |
| EntryForm.ManualUnitMLEdited | sulomon/RecordStep2View.swift:505-507 | editing the volume text changes the volume only when it parses |
| EntryForm.ManualUnitNameEdited | sulomon/RecordStep2View.swift:493-496 | a blank unit name reads as "기타", any other name as its trimmed text |
| EntryForm.ManualBrandEdited | sulomon/RecordStep2View.swift:333-336 | the brand is nil iff the text is blank, else the trimmed text |
| EntryForm.SelectPreset | sulomon/RecordStep2View.swift:314-319 | a tapped brand preset becomes the selection and sets strength and brand (none for somac) and the brand text; nothing else changes |
| EntryForm.SelectPresetReadiesStep1 | sulomon/RecordStep2View.swift:314-319 | after any preset tap, step 1 is ready |
| EntryForm.SelectUnitPreset | sulomon/RecordStep2View.swift:451-464 | a tapped unit sets the selection, the volume and the manual fields; "기타" keeps the typed unit name |
| EntryForm.MLTextReadsBack | sulomon/RecordStep2View.swift:458 | a positive whole volume shown as "%.0f" parses back to itself |
| EntryForm.SelectUnitPresetConsistent | sulomon/RecordStep2View.swift:459-463 | after a fixed unit tap, the volume field parses back to the selected volume |
| EntryForm.InitializeStep2Defaults | sulomon/RecordStep2View.swift:735-749 | the first unit preset is selected and its title and volume become the unit name and volume |
| EntryForm.Step2DefaultsConsistent | sulomon/RecordStep2View.swift:735-749 | after the defaults, the volume is positive and its field parses back to it |
| EntryForm.ApplyDefaultPercent | sulomon/RecordStep2View.swift:671-672 | the effective strength is written in, and somac drops its brand |
| EntryForm.OnStep2Shown | sulomon/RecordStep2View.swift:669-673 | the effective strength is written in and somac drops its brand; with no unit picked, the first unit preset's title, name and volume are taken, else the units stay; nothing else outside the unit fields changes |
| EntryForm.OnAppear | sulomon/RecordStep2View.swift:718-724 | kinds without presets get their effective strength written in (somac also drops its brand), kinds with presets keep strength and brand; with no unit picked, the first unit preset is taken, else the units stay; a unit is always selected afterwards |
| EntryForm.LifecyclePreservesStrength | sulomon/RecordStep2View.swift:669-673 | writing in the default never changes the strength in use |
| EntryForm.FreshFormHasUnit | sulomon/RecordStep2View.swift:718-724 | a fresh form selects the kind's first unit, with a positive volume |
| EntryForm.ToggleFeeling | sulomon/RecordStep2View.swift:626-630 | tapping the selected feeling clears it; tapping another selects it |
| EntryForm.ToggleFeelingTwice | sulomon/RecordStep2View.swift:626-630 | two taps on a feeling end with it selected exactly when it was selected before |
| EntryForm.TogglePerson | sulomon/RecordStep2View.swift:566-572 | tapping a person flips that person's membership and nobody else's |
| EntryForm.TogglePersonTwice | sulomon/RecordStep2View.swift:566-572 | two taps on a person restore the selection |
| EntryForm.TapFeeling | sulomon/RecordStep2View.swift:626-630 | the form's feeling is toggled and nothing else changes |
| EntryForm.TapPerson | sulomon/RecordStep2View.swift:566-572 | the form's companions are toggled and nothing else changes |
| EntryForm.PeopleList | sulomon/RecordStep2View.swift:258 | the selected set as a list: each member once, nothing else |
| EntryForm.SaveData | sulomon/RecordStep2View.swift:251-268 | the saved record carries the effective strength, the amount, volume, unit name, brand, feeling and exactly the selected people, and is not synced |
| EntryForm.SavedAlcoholMatchesForm | sulomon/RecordStep2View.swift:254-264 | the stored record holds exactly the total the form showed |
| EntryForm.AfterHealthSync | sulomon/RecordStep2View.swift:272-283 | an attempted, authorised and stored sync sets the synced flag and changes nothing else; otherwise the record is unchanged |
| EntryForm.SaveFinished | sulomon/RecordStep2View.swift:285-288 | the spinner stops and the confirmation shows |
| EntryForm.SaveGuards | sulomon/RecordStep2View.swift:709 | the button is disabled with no amount or while saving, so every enabled save attempts a sync |
| EntryForm.NoUnitsNoSync | sulomon/RecordStep2View.swift:273 | without an amount the record stays unsynced whatever HealthKit answers |
| People.AddPerson | sulomon/PeopleView.swift:81-86 | a name of horizontal whitespace only adds nobody; any other adds exactly one person, with the name trimmed of that whitespace |
| People.AddedNameIsTrimmed | sulomon/PeopleView.swift:82-84 | the added name is non-empty and neither starts nor ends with horizontal whitespace |
| People.LineBreakNameIsAdded | sulomon/PeopleView.swift:82 | newlines are not trimmed: a line break alone is added as a name |
| People.DeletePeople | sulomon/PeopleView.swift:88-94 | every offset must be inside the list, as `people[index]` traps otherwise; every person not at an offset remains |
| People.DeletePeopleExactly | sulomon/PeopleView.swift:88-94 | exactly the people at the offsets go and every other one stays |
| People.TimeKeyIsChronological | sulomon/PeopleView.swift:160 | the sort key orders moments chronologically |
| People.SortedDrinks | sulomon/PeopleView.swift:159-161 | a permutation of the person's drinks, newest first; a missing timestamp sorts as now |
| People.TotalMeetings | sulomon/PeopleView.swift:196 | the meeting count is the number of records listing the person |
| People.LastMeetingIsLatest | sulomon/PeopleView.swift:182 | the first sorted drink is no older than any drink with the person |
| People.NoMeetings | sulomon/PeopleView.swift:182-190 | someone no record lists has no meetings and no last meeting |
| People.LastMeeting | sulomon/PeopleView.swift:182 | no drinks means no last meeting, and a last meeting is the time of one of the person's drinks |
| People.CountKindOfPermutation | sulomon/PeopleView.swift:237 | counting drinks per kind does not depend on their order |
| People.CountKind | sulomon/PeopleView.swift:237 | a kind occurs at most as often as there are drinks |
| People.MostCommon | sulomon/PeopleView.swift:238 | the chosen candidate's count is at least every candidate's |
| People.FavoriteKind | sulomon/PeopleView.swift:237-238 | no kind, nor "none", outnumbers the favourite |
| People.FavoriteKindOccurs | sulomon/PeopleView.swift:236-238 | with some drinks, the favourite occurs among them |
| People.FavoriteDrink | sulomon/PeopleView.swift:235-242 | "-" exactly when the person has no drinks |
| People.FavoriteDrinkIsMostFrequent | sulomon/PeopleView.swift:235-242 | otherwise the name of a kind that occurs and that no other kind outnumbers among the person's drinks |
| History.CalculateTotalAlcohol | sulomon/HistoryView.swift:348-353 | a record missing units, volume or strength shows 0 |
| History.TotalAlcoholIsPureAlcohol | sulomon/HistoryView.swift:348-353 | the detail figure is the record's pure alcohol, the one the dashboard sums, and is non-negative for non-negative amounts |
| History.FormatUnits | sulomon/HistoryView.swift:343-346 | the amount text is never empty |
| History.FormatUnitsPoint | sulomon/HistoryView.swift:343-346 | the text has a decimal point exactly when the amount is not whole |
| History.FormatUnitsReadsBack | sulomon/HistoryView.swift:343-346 | the text reads back as the amount when whole, else as the amount rounded to tenths |
| History.WholeAmountTexts | sulomon/HistoryView.swift:343-346 | two units show "2"; no amount shows "0" |
| History.HalfAmountText | sulomon/HistoryView.swift:343-346 | one and a half units show "1.5" |
| History.BrandName | sulomon/HistoryView.swift:85 | the brand if present, else the kind's name |
| History.BrandNameFallback | sulomon/HistoryView.swift:85 | a record with neither brand nor kind reads like kind etc; a kind's name decodes back to the kind |
| History.DescriptionText | sulomon/HistoryView.swift:84-92 | the card text is the brand name, a space, the amount text and the unit name, in that order and nothing else; the unit name falls back to "단위" |
| History.DescriptionAmountReadsBack | sulomon/HistoryView.swift:84-92 | the amount between brand and unit name reads back as the amount when whole, else as the amount rounded to tenths |
| History.DeleteItems | sulomon/HistoryView.swift:58-64 | every offset must be inside the list, as `records[index]` traps otherwise; as many records go as there are offsets, and only records of the list remain |
| History.DeleteItemsExactly | sulomon/HistoryView.swift:58-64 | exactly the records at the offsets go and every other one stays |
| History.DeleteNothing | sulomon/HistoryView.swift:58-64 | deleting no offsets keeps the list |
| History.UpdateDate | sulomon/HistoryView.swift:317 | the timestamp becomes the chosen moment and nothing else changes |
| History.UpdateDateKeepsRest | sulomon/HistoryView.swift:315-321 | a date edit keeps the alcohol and the re-sync decision, and the record now reads as the chosen moment |
| History.NoAlertWithoutSync | sulomon/HistoryView.swift:321-333 | no re-sync and no alert for a record that is not synced or has no positive amount |
| Seqs.KeptIndicesExactly | sulomon/HistoryView.swift:60-62 | the kept indices are exactly those below the length outside the offsets, increasing |
| Seqs.RemoveAtIndices | sulomon/HistoryView.swift:58-64 | the k-th survivor is the element at the k-th kept index |
| Seqs.RemoveAtExactly | sulomon/PeopleView.swift:88-94 | in a list without repeats, removal drops as many elements as there are offsets: exactly those at the offsets |
| Seqs.DeleteOffsets | sulomon/HistoryView.swift:58-64 | every offset must lie in the list; the survivors are the elements at the kept indices in order, and as many elements go as there are offsets |
| Seqs.SortDescending | sulomon/PeopleView.swift:160 | the result is a permutation of the input with non-increasing keys |
| Seqs.HeadOfDescendingIsMax | sulomon/PeopleView.swift:182 | the head of a descending list has the largest key |
| Text.Trim | sulomon/PeopleView.swift:82 | the trimmed text is empty exactly when the whole text is blank |
| Text.TrimKeepsMiddle | sulomon/RecordStep2View.swift:372 | trimming cuts the leading and trailing runs of blanks and keeps what lies between |
| Text.TrimmedEnds | sulomon/PeopleView.swift:82 | a non-empty trimmed text neither starts nor ends with a blank |
| Text.TrimIsIdempotent | sulomon/RecordStep2View.swift:372 | trimming twice is trimming once |
| Text.CommasToDots | sulomon/RecordStep2View.swift:372 | every comma becomes a point; nothing else changes |
| Text.NormalizeNumeral | sulomon/RecordStep2View.swift:372 | text made of digits, points and minus signs passes the normalisation unchanged |
| Text.ParseDecimalShape | sulomon/RecordStep2View.swift:377 | an accepted number starts with a sign, digit or point; only a leading minus is negative; a leading blank is rejected |
| Text.RoundHalfEven | sulomon/RecordStep2View.swift:367 | the rounded value is within one half of the input, ties go to even |
| Text.FormatWholeIsNumeral | sulomon/HistoryView.swift:345 | "%.0f" output is non-empty numeral text with no point |
| Text.FormatOneDecimalIsNumeral | sulomon/HistoryView.swift:345 | "%.1f" output is non-empty numeral text with a point |
| Text.ShowNatDigits | sulomon/RecordStep2View.swift:458 | a natural number's digits are non-empty and denote it |
| Text.ParseFormatWhole | sulomon/RecordStep2View.swift:458 | parsing "%.0f" output gives the input rounded to a whole number |
| Text.ParseFormatOneDecimal | sulomon/RecordStep2View.swift:367 | parsing "%.1f" output gives the input rounded to tenths |
| Text.RoundedWhole | sulomon/RecordStep2View.swift:458 | a whole number survives "%.0f" exactly |
| Text.RoundedTenths | sulomon/RecordStep2View.swift:367 | a number of tenths survives "%.1f" exactly |

## Left out

- HealthKit (`HealthKitManager.swift`) and the `Task`/`MainActor` blocks: asynchronous calls into a foreign framework. Whether a sync was attempted, authorised and stored is a boolean parameter, and only the flag write and the alert are modelled.
- SwiftData persistence: record and person lists are plain sequences. `modelContext.insert` is appending, and `delete` is removal at the offsets. The delete rule that clears the inverse relationship is not modelled, and neither is the `@Query` sort order. The input list is taken to be already in that order: records newest first, people by name.
- `Person.drinks`, the stored inverse relationship, is derived instead: `Data.DrinksOf` gives the records that list the person. Persons compare structurally, by id and name.
- All SwiftUI layout, styling, animation, scrolling, navigation, the `@AppStorage` badge, and the step 1 and tab screens.
- `DateFormatter` text, the `"%.1f mL"` labels and the `"%g"` text of the amount field (`RecordStep2View.swift` 411). Only `"%.0f"` and `"%.1f"` of numbers that go back through the parser are modelled.
- Which brand field is visible (`needsManualBrand` and `needsManualBrandWhenPreset`, `RecordStep2View.swift` 190-201), and the display order of people in step 3 (203-205): these are presentation only. The brand field's handler is modelled.
- Change handlers that fire because another handler wrote a field: for example, a preset tap writes `manualBrandText`, which fires its `onChange`. Each handler is a separate function, and such chains are not composed.
- `Double(String)` accepts only plain decimal numerals here: an optional sign, digits and one point. Exponents, hexadecimal, `inf`, `nan` and overflow are not modelled.
- IEEE 754 rounding: quantities are exact reals. `"%.0f"` and `"%.1f"` round half to even on the exact value.
- Foundation `Calendar`: dates are local civil dates in the proleptic Gregorian calendar, with Sunday as weekday 1. Time zones and daylight-saving shifts are already applied.
- The `guard`/`if let` failure branches of `daysInMonth` and `changeMonth` (`DashboardView.swift` 215-218 and 233): they cannot fail for a valid date.
- UUID generation: ids are supplied by the caller.
- Delete offsets outside the list: `records[index]` and `people[index]` trap in the app. `History.DeleteItems` and `People.DeletePeople` therefore require every offset to be inside the list, and the trap itself is not modelled.
- Dashboard.BestMate: does not say which of several equally frequent people is chosen, because `max(by:)` over a dictionary has no defined order.
- Dashboard.MaxCount: same unspecified tie-break as `BestMate`.
- People.FavoriteKind: states maximality, not which of several equally frequent kinds is reported, for the same reason.
- People.SortedDrinks: does not fix the order of drinks with equal timestamps, because `sorted(by:)` is not stable.
- EntryForm.PeopleList: does not fix the order of `Array(selectedPeople)`, because the order of a Swift `Set` is unspecified.
- Dashboard.Streak: the `components.day ?? 0` fallback is not modelled, because the day difference of two dates always exists.
