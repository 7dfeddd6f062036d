# hostdrag — a verified model of the prescription helper's core

hostdrag is a small web front end for a pharmacy. Staff pick medications from a catalogue grouped by genre and set a number of days for each. They then print a prescription sheet that shows, for every medication, a grid of dosing slots (起床後, 朝, 昼, 夕, 就寝前, 必要時), the dose line and the number of days. Other screens:

- add a medication;
- edit a medication;
- create a medication set (a named group of medications);
- add medications to a set and remove them from it.

This project models the decision logic of those screens in Dafny and proves what each piece promises:

- `Prescription` (src/component/PrescriptionPreview.tsx) models the sheet. It covers:
  - how the timing tags are normalised;
  - how a schedule is classified as special or normal;
  - how the tags are projected onto the six slots, including the "毎食間" override;
  - the dose unit, and the cells of a row;
  - how query results become loading, error or sheet views.
- `Home` (src/component/Home.tsx) models the home page:
  - the genre comparator, and the genre sort as a permutation in comparator order;
  - the grouping loop, as a `method` over a `map` proved against a specification function;
  - the selection map with its toggle and day-count handlers;
  - the ascending-id extraction of the selection, and the names shown beside it;
  - the expanded set names, as a `class HomePage` whose methods update its fields.
- `AddDrag`, `EditMedication`, `EditSet` and `AddSet` model the four forms. Each form's state is a class, and each handler is a method that states the whole new state. The guards before each request are functions with their error paths:
  - the empty genre;
  - the genre whitelist, and the vocabulary clean-up of the timing tags;
  - the blank set name, then the empty selection;
  - the filter for medications not yet in a set.
- Shared pieces are:
  - `ListToggle`: the remove-all-or-append toggle used by every checkbox list;
  - `Common`: `filter`, `find`, `findIndex`, `some`, `map` and sublists;
  - `Text`: JavaScript `trim`, `join` and `split`, string order, and the decimal rendering of day counts;
  - `Sorting`: `sort` with a comparator, proved to give a sorted permutation;
  - `Vocabulary`: the fixed tag and genre lists.

Network results are parameters of the model. These include a record that arrived or a request that is pending or failed, whether a post succeeded, and what a server error said. Each handler returns the request it would send.

Where this model follows the code rather than other descriptions of the system:

- only "毎食間" fills the meal slots ("毎食前" and "毎食後" fill nothing);
- the sixth slot is "必要時" and is filled only by "発熱・疼痛時", "嘔気時" and "頭痛時";
- there is no special case for "外用薬" on the sheet (it gets "錠" and a normal grid);
- the edit form's genre list lacks "外用薬", so a medication registered under that genre cannot be saved from the edit form (`EditMedication.TopicalCannotBeSaved`).

## Model

| member | source | states |
|---|---|---|
| Prescription.NormaliseTiming | src/component/PrescriptionPreview.tsx:43-45 | an array of tags is used unchanged; an absent or empty value is the empty list; other text goes through the decoder |
| Prescription.UnitOrDefault | src/component/PrescriptionPreview.tsx:42 | the days unit is the selection's unit when non-empty, otherwise "日分"; never empty |
| Prescription.RunQuery | src/component/PrescriptionPreview.tsx:33-49 | a query is loading iff its request is pending; it succeeds iff a record arrived and its tags decode; the result carries the record's name, genre, amount and tags and the selection's days and unit |
| Prescription.EncodedTimingAgreesWithArray | src/component/PrescriptionPreview.tsx:43-45 | a tag list sent as JSON text gives the same query result as the same list sent as an array |
| Prescription.SlotMatchesTable | src/component/PrescriptionPreview.tsx:73-80 | the `find` predicate matches tag t for a column exactly when t is in that column's row of the reference slot table |
| Prescription.IsSpecialTiming | src/component/PrescriptionPreview.tsx:85-87 | the interval schedule needs at least two tags |
| Prescription.DosageForTiming | src/component/PrescriptionPreview.tsx:68-83 | a column shows the dose or nothing; "毎食間" fills every meal column; a label outside the six columns shows nothing |
| Prescription.DosageForTimingSpec | src/component/PrescriptionPreview.tsx:68-83 | a slot shows exactly the dose or "", and shows the dose iff "毎食間" is present and the slot is a meal, or some tag from the slot's table row is present |
| Prescription.NormalTimingTable | src/component/PrescriptionPreview.tsx:89-102 | the normal grid has the six headers 起床後, 朝, 昼, 夕, 就寝前, 必要時 in that order and six values, each the dose iff its slot is filled by the table |
| Prescription.SpecialTimingTable | src/component/PrescriptionPreview.tsx:106-119 | the special grid has headers 症状出現時, 12時間後 and both values equal to the dose verbatim |
| Prescription.TimingTable | src/component/PrescriptionPreview.tsx:85-142 | the special grid is used iff both 症状出現時 and 12時間後 are tags; every value is the dose or "" |
| Prescription.TimingTableIgnoresOrderAndRepetition | src/component/PrescriptionPreview.tsx:69-87 | two tag lists with the same members give the same grid: order and duplicates do not matter |
| Prescription.BetweenMealsFillsMeals | src/component/PrescriptionPreview.tsx:69-71 | with 毎食間 on a normal schedule, the 朝, 昼 and 夕 slots all show the dose whatever else is present |
| Prescription.UnmappedTagsFillNothing | src/component/PrescriptionPreview.tsx:73-82 | tags drawn only from 発熱時, 指示通り, 毎食前 and 毎食後 leave all six slots empty |
| Prescription.DirectMatchFillsSlot | src/component/PrescriptionPreview.tsx:73-82 | without 毎食間, a slot shows the dose (once) iff some tag matches that slot |
| Prescription.DosageUnit | src/component/PrescriptionPreview.tsx:103-105 | the unit is "包" iff the genre is "漢方薬", and "錠" for every other genre |
| Prescription.BuildRow | src/component/PrescriptionPreview.tsx:136-152 | a row holds the name, the timing grid, "1回 " + amount + unit, the tags joined by newlines (which split back into the tags, and are "" for no tags), days + unit, the effects and the precautions |
| Prescription.TimingLinesReadBack | src/component/PrescriptionPreview.tsx:146 | tags without line breaks joined with "\n" split back into the same tags in the same order |
| Prescription.SucceededMedications | src/component/PrescriptionPreview.tsx:52-54 | when every query succeeded, the medications are their data, one per query, in query order |
| Prescription.RenderPage | src/component/PrescriptionPreview.tsx:50-66 | loading iff some query loads; error iff none loads and some failed; otherwise every query succeeded and row i is built from query i |
| Prescription.AllSucceededKept | src/component/PrescriptionPreview.tsx:52-54 | the success filter keeps a list of successful queries whole |
| Prescription.PreviewLoading | src/component/PrescriptionPreview.tsx:50-62 | the loading view is shown iff some request is pending |
| Prescription.PreviewError | src/component/PrescriptionPreview.tsx:51-66 | the error view is shown iff nothing is pending and some query failed |
| Prescription.PreviewSheet | src/component/PrescriptionPreview.tsx:52-150 | on the sheet, row i belongs to selected medication i, carries its fetched name and shows its own days and unit |
| Prescription.Preview | src/component/PrescriptionPreview.tsx:31-150 | the whole page for a selection: loading wins over error, and the sheet has one row per selection in selection order |
| Home.GenreIndex | src/component/Home.tsx:77-78 | `indexOf` in the genre list: -1 iff the genre is unlisted, otherwise the position holding it |
| Home.CompareGenres | src/component/Home.tsx:76-83 | a listed genre sorts before an unlisted one; two unlisted genres compare by string order |
| Home.ListedGenresByPosition | src/component/Home.tsx:28-82 | two listed genres compare below zero iff the first comes earlier in the list |
| Home.CompareGenresAntisymmetric | src/component/Home.tsx:76-83 | swapping the arguments flips the comparator's sign |
| Home.CompareGenresZeroIffEqual | src/component/Home.tsx:76-83 | the comparator is zero only on equal genres |
| Home.CompareGenresTransitive | src/component/Home.tsx:76-83 | the comparator's "at most" is transitive |
| Home.CompareGenresIsOrder | src/component/Home.tsx:76-83 | the comparator is a total preorder |
| Home.SortGenres | src/component/Home.tsx:75-84 | the sorted genres are a permutation of the keys, ordered by the comparator |
| Home.SortedGenresListedFirst | src/component/Home.tsx:79-81 | in the sorted list, everything before a listed genre is listed (unlisted genres such as 外用薬 come last) |
| Home.SortedGenresFollowList | src/component/Home.tsx:28-82 | listed genres appear in the order of the genre list |
| Home.Bucket | src/component/Home.tsx:66-71 | a bucket holds exactly the medications of its genre |
| Home.BucketKeepsOrder | src/component/Home.tsx:66-71 | a bucket keeps the catalogue's relative order |
| Home.GenresInOrder | src/component/Home.tsx:67-69 | the genres in order of first occurrence hold no duplicates |
| Home.GenresInOrderMembers | src/component/Home.tsx:67-69 | a genre is a key iff some medication has it |
| Home.BucketEmptyIffAbsent | src/component/Home.tsx:67-70 | a bucket is empty iff its genre does not occur |
| Home.GroupingStep | src/component/Home.tsx:66-71 | one reduce step pushes the medication onto its genre's bucket, created empty when the genre is new |
| Home.GroupingBuckets | src/component/Home.tsx:64-73 | the grouping has exactly one non-empty bucket per genre that occurs |
| Home.GroupByGenre | src/component/Home.tsx:64-73 | no catalogue gives no buckets; otherwise the keys are the occurring genres in first-occurrence order and each bucket is exactly its genre's medications in order |
| Home.DaysUnitFor | src/component/Home.tsx:87-88 | the toggle's unit is "回分" or "日分" |
| Home.DaysUnitByName | src/component/Home.tsx:87-88 | the unit is "回分" iff the first catalogue entry with that id is named 五苓散料 or 呉茱萸湯 |
| Home.DaysUnitUnknownId | src/component/Home.tsx:87-88 | an id with no catalogue entry gets "日分" |
| Home.ToggledSelection | src/component/Home.tsx:89-96 | the flag is negated (an absent entry becomes selected), a non-zero day count is kept and zero becomes 1, and the unit is the recomputed one |
| Home.ToggleSelectionTwice | src/component/Home.tsx:89-96 | toggling twice restores the flag and keeps the day count |
| Home.WithDays | src/component/Home.tsx:100-104 | a days change sets only the day count and keeps flag and unit; a missing entry becomes an unselected entry without unit |
| Home.SortedIds | src/component/Home.tsx:133 | the selection's ids are listed once each, ascending |
| Home.SelectedIds | src/component/Home.tsx:133-134 | exactly the ids whose entry is selected, ascending |
| Home.SubsequenceOfAscending | src/component/Home.tsx:133-134 | a sublist of an ascending list is ascending |
| Home.GetSelectedMedications | src/component/Home.tsx:132-136 | one entry per selected id, each selected and carrying its days and unit unchanged |
| Home.Entries | src/component/Home.tsx:135 | the entries of a list of ids, in the same order |
| Home.Entry | src/component/Home.tsx:135 | an entry carries its id, days and unit unchanged |
| Home.SelectedMedicationsOrder | src/component/Home.tsx:132-136 | the extracted entries follow the selected ids in ascending order |
| Home.SelectedMedicationsComplete | src/component/Home.tsx:132-136 | every selected entry is extracted |
| Home.SelectionReachesSheet | src/component/Home.tsx:248 | once the preview sheet is shown for the home page's selection, every selected medication has a row with its own days and unit |
| Home.NameFor | src/component/Home.tsx:142-143 | a name lookup gives the catalogue entry's name, or "" when no entry has the id |
| Home.FindMedication | src/component/Home.tsx:87 | nothing iff no catalogue or no entry with the id; otherwise a catalogue entry with that id |
| Home.GetSelectedMedicationNames | src/component/Home.tsx:138-145 | one name per selected id, in the same ascending order |
| Home.NamesMatchSelection | src/component/Home.tsx:132-145 | name i is the name of the medication extracted at position i |
| Home.HomePage.constructor | src/component/Home.tsx:40-41 | the page starts with no selections and no expanded set |
| Home.HomePage.HandleMedicationSelect | src/component/Home.tsx:86-97 | only the clicked entry changes, to its toggled value |
| Home.HomePage.HandleDaysChange | src/component/Home.tsx:100-105 | only the entry's day count changes |
| Home.HomePage.ToggleSetExpansion | src/component/Home.tsx:106-116 | the name's membership flips, no other name changes, and the names stay duplicate-free |
| ListToggle.Without | src/component/AddDrag.tsx:84 | removing a tag drops every occurrence of it and keeps the others |
| ListToggle.Toggle | src/component/AddDrag.tsx:83-85 | the tag is present after the toggle iff it was absent; others stay; an absent tag is appended at the end |
| ListToggle.ToggleKeepsOthers | src/component/AddDrag.tsx:83-85 | apart from the toggled tag, the list is unchanged |
| ListToggle.WithoutIsSubsequence | src/component/AddDrag.tsx:84 | removal keeps the other tags in their order |
| ListToggle.WithoutAbsent | src/component/AddDrag.tsx:84 | removing an absent tag leaves the list unchanged |
| ListToggle.WithoutNoDuplicates | src/component/AddDrag.tsx:84 | removal keeps a duplicate-free list duplicate-free |
| ListToggle.ToggleNoDuplicates | src/component/AddDrag.tsx:83-85 | toggling keeps a duplicate-free list duplicate-free |
| ListToggle.ToggleTwiceAbsent | src/component/AddDrag.tsx:83-85 | toggling an absent tag twice restores the list |
| ListToggle.ToggleTwicePresent | src/component/AddDrag.tsx:83-85 | toggling a present tag twice moves it to the end, a different list unless it was last |
| ListToggle.ToggleAsSet | src/component/Home.tsx:108-113 | as a set, the toggle flips the membership of one element and of nothing else |
| ListToggle.ToggleTwiceSameMembers | src/component/Home.tsx:106-115 | as a set, toggling twice restores the members |
| AddDrag.WithField | src/component/AddDrag.tsx:71-74 | the named field takes the value; every other field, the lists and the genre are unchanged |
| AddDrag.WithFieldLastWins | src/component/AddDrag.tsx:71-74 | the last edit of a field wins, and edits of different fields commute |
| AddDrag.WithFieldUnchanged | src/component/AddDrag.tsx:71-74 | writing a field's own text changes nothing |
| AddDrag.Submission | src/component/AddDrag.tsx:113-120 | an empty genre, as the form opens with, stops the submit; otherwise, and in particular for every genre the select offers, the record is posted as it stands |
| AddDrag.AddDragForm.constructor | src/component/AddDrag.tsx:40-48 | the form starts with empty texts, no tags, no sets and no genre |
| AddDrag.AddDragForm.HandleInputChange | src/component/AddDrag.tsx:71-74 | only the named field changes |
| AddDrag.AddDragForm.HandleGenreChange | src/component/AddDrag.tsx:76-78 | only the genre changes |
| AddDrag.AddDragForm.HandleDosageTimingChange | src/component/AddDrag.tsx:80-87 | the tags are toggled and stay duplicate-free; nothing else changes |
| AddDrag.AddDragForm.HandleSetChange | src/component/AddDrag.tsx:89-96 | the set ids are toggled and stay duplicate-free; nothing else changes |
| AddDrag.AddDragForm.HandleSubmit | src/component/AddDrag.tsx:113-120 | no request iff the genre is empty; otherwise the request is the form's record |
| EditMedication.EditField | src/component/EditMedication.tsx:86-89 | no record stays no record; otherwise only the named field changes |
| EditMedication.EditGenre | src/component/EditMedication.tsx:104-106 | no record stays no record; otherwise only the genre changes |
| EditMedication.EditTiming | src/component/EditMedication.tsx:91-102 | no record stays no record; otherwise the tags are toggled |
| EditMedication.EditTimingTwice | src/component/EditMedication.tsx:91-102 | two clicks on one checkbox restore whether the tag is present |
| EditMedication.KnownTimingsExact | src/component/EditMedication.tsx:18-119 | the cleaned tags are a sublist of the tags, holding exactly those in the timing vocabulary |
| EditMedication.KnownTimings | src/component/EditMedication.tsx:119 | the cleaned tags are no more than the stored ones and all in the timing vocabulary |
| EditMedication.KnownTimingsStable | src/component/EditMedication.tsx:119 | cleaning twice is cleaning once; vocabulary-only tags are kept whole |
| EditMedication.Submission | src/component/EditMedication.tsx:108-126 | nothing happens without a record; a genre outside the list is refused; otherwise the record is put with its tags cleaned and every other field unchanged |
| EditMedication.PutPayloadShape | src/component/EditMedication.tsx:117-121 | the put keeps the id, name, sets and an accepted genre, and sends only vocabulary tags |
| EditMedication.TopicalCannotBeSaved | src/component/EditMedication.tsx:24-114 | a medication of genre 外用薬, which the add form offers, is refused by the edit form |
| EditMedication.EditMedicationForm.constructor | src/component/EditMedication.tsx:38-40 | nothing selected, no record and an idle banner at first |
| EditMedication.EditMedicationForm.SelectMedication | src/component/EditMedication.tsx:148 | a click sets the selected id and changes nothing else |
| EditMedication.EditMedicationForm.HandleLoaded | src/component/EditMedication.tsx:62-66 | a fetched record replaces the form; an empty answer leaves it alone |
| EditMedication.EditMedicationForm.HandleInputChange | src/component/EditMedication.tsx:86-89 | the record becomes its field edit |
| EditMedication.EditMedicationForm.HandleDosageTimingChange | src/component/EditMedication.tsx:91-102 | the record becomes its timing toggle |
| EditMedication.EditMedicationForm.HandleGenreChange | src/component/EditMedication.tsx:104-106 | the record becomes its genre edit |
| EditMedication.EditMedicationForm.HandleSubmit | src/component/EditMedication.tsx:73-126 | a request is sent iff the submit decision is a put; the banner then shows success or failure, and otherwise stays |
| EditSet.CheckNewSet | src/component/EditSet.tsx:48-57 | a blank name is refused first, then an empty selection; otherwise the request is the name as typed with the selected ids |
| EditSet.SubmitMessage | src/component/EditSet.tsx:47-66 | the error text is empty iff the checks pass and the set is created; each refusal has its own text |
| EditSet.ServerErrorMessage | src/component/EditSet.tsx:62 | the server-error text splits into two lines: the error, then the details or "不明" |
| EditSet.NewSetForm.constructor | src/component/EditSet.tsx:21-25 | empty name, no ids and no error at first |
| EditSet.NewSetForm.SetSetName | src/component/EditSet.tsx:104 | only the name changes |
| EditSet.NewSetForm.HandleMedicationSelect | src/component/EditSet.tsx:69-75 | the id is toggled, its membership flips and the ids stay duplicate-free |
| EditSet.NewSetForm.HandleSubmit | src/component/EditSet.tsx:45-67 | a request iff the checks pass, equal to the name and the ids; home is reached iff it is created; the error text is the submit's message |
| AddSet.UnregisteredMedications | src/component/AddSet.tsx:148-150 | no catalogue gives no offers; otherwise at most the catalogue |
| AddSet.Registered | src/component/AddSet.tsx:149 | a medication is registered iff a set is loaded and one of its members has the id |
| AddSet.NoSetChosen | src/component/AddSet.tsx:95 | a set counts as chosen iff its name is present and non-empty |
| AddSet.UnregisteredExact | src/component/AddSet.tsx:148-150 | a medication is offered iff it is in the catalogue and its id is not in the set; offers keep the catalogue's order |
| AddSet.MembersNotOffered | src/component/AddSet.tsx:148-150 | no member's id appears among the offers |
| AddSet.NoSetOffersAll | src/component/AddSet.tsx:148-150 | with no set fetched, the whole catalogue is offered |
| AddSet.SetManager.constructor | src/component/AddSet.tsx:26-29 | no set chosen, dialog closed, empty name and no error at first |
| AddSet.SetManager.HandleSetClick | src/component/AddSet.tsx:90-92 | the clicked set becomes the chosen one |
| AddSet.SetManager.SetAddSetModalOpen | src/component/AddSet.tsx:182 | only the dialog's open flag changes |
| AddSet.SetManager.SetNewSetName | src/component/AddSet.tsx:254 | only the dialog's name changes |
| AddSet.SetManager.HandleAddMedication | src/component/AddSet.tsx:94-103 | nothing is sent without a chosen set; otherwise one id is posted and the error text is cleared or set |
| AddSet.SetManager.HandleRemoveMedication | src/component/AddSet.tsx:105-114 | the same, for a delete request |
| AddSet.SetManager.HandleAddSet | src/component/AddSet.tsx:116-130 | a blank name sets the name error and sends nothing; success clears the name and error and closes the dialog; failure sets the failure text |
| Sorting.SortedAt | src/component/Home.tsx:76 | any two positions of a sorted list are in comparator order |
| Sorting.InsertMultiset | src/component/Home.tsx:76 | insertion adds exactly one element |
| Sorting.Insert | src/component/Home.tsx:76 | insertion lengthens the list by one, keeps every element and adds only x |
| Sorting.InsertLowerBound | src/component/Home.tsx:76 | insertion keeps a lower bound |
| Sorting.InsertSorted | src/component/Home.tsx:76 | inserting into a sorted list keeps it sorted |
| Sorting.Sort | src/component/Home.tsx:76 | `sort` with a total-preorder comparator gives a sorted permutation |
| Common.Filter | src/component/EditMedication.tsx:119 | `filter` keeps exactly the passing elements |
| Common.FilterIsSubsequence | src/component/EditMedication.tsx:119 | `filter` only deletes, never reorders |
| Common.FilterKeepsAll | src/component/PrescriptionPreview.tsx:53 | filtering a list that passes whole returns it |
| Common.FilterIdempotent | src/component/EditMedication.tsx:119 | filtering twice is filtering once |
| Common.FilterAppend | src/component/EditMedication.tsx:119 | filter distributes over concatenation |
| Common.MapSeq | src/component/Home.tsx:141 | `map` applies the function at every position |
| Common.FirstIndex | src/component/Home.tsx:77 | `findIndex`/`indexOf`: -1 iff nothing passes, otherwise the first passing index |
| Common.Find | src/component/Home.tsx:87 | `find`: nothing iff no element passes, otherwise a passing element |
| Common.Any | src/component/PrescriptionPreview.tsx:50-51 | `some`: true iff some element passes |
| Common.FindFirst | src/component/Home.tsx:87 | `find` returns the element at the first passing index |
| Text.TrimStart | src/component/EditSet.tsx:48 | leading whitespace is dropped and only whitespace |
| Text.TrimEnd | src/component/EditSet.tsx:48 | trailing whitespace is dropped and only whitespace |
| Text.Trim | src/component/EditSet.tsx:48 | the trimmed text is no longer, starts and ends with non-whitespace, and is empty iff the text is all whitespace |
| Text.IsBlank | src/component/EditSet.tsx:48 | a name is blank iff every character is whitespace |
| Text.Join | src/component/PrescriptionPreview.tsx:146 | joining no parts gives "" (read back by `Text.SplitJoin`) |
| Text.Split | src/component/EditSet.tsx:62 | at least one line; text without the separator is one line |
| Text.SplitJoin | src/component/PrescriptionPreview.tsx:146 | joining with a separator that no part contains, then splitting, gives the parts back |
| Text.SplitAtFirst | src/component/EditSet.tsx:62 | splitting at the first separator gives the prefix, then the rest |
| Text.Compare | src/component/Home.tsx:79 | a three-way result in -1..1; with the three lemmas below, a total order |
| Text.CompareAntisymmetric | src/component/Home.tsx:79 | string order is antisymmetric |
| Text.CompareZeroIffEqual | src/component/Home.tsx:79 | string order is zero only on equal strings |
| Text.CompareTransitive | src/component/Home.tsx:79 | string order is transitive |
| Text.ParseNatString | src/component/PrescriptionPreview.tsx:149 | the decimal rendering of a day count reads back as the count |
| Text.IntString | src/component/PrescriptionPreview.tsx:149 | a day count renders as its decimal digits, with a minus sign when negative |

## Left out

- Rendering: JSX, CSS classes and the colour of each genre panel are presentation only. The grid is modelled as header and value strings.
- Network and caching: axios and react-query (requests, cache invalidation, refetching after a mutation). Each request's result is a parameter.
- `JSON.parse` is a foreign call. It is the decoder parameter of `Prescription.NormaliseTiming`. Text that is not JSON makes the parse throw, and the query fails.
- Prescription.NormaliseTiming: JSON text that parses to something other than an array (a number, a string, an object, `null`) is not modelled. The query succeeds with that value, and the render then fails with a TypeError when it calls `includes` or `join` on it. The decoder's `None` stands only for text that is not JSON.
- EditMedication.EditTiming, EditMedication.Submission, EditMedication.EditMedicationForm.HandleDosageTimingChange and EditMedication.EditMedicationForm.HandleSubmit: the fetched record's tags are taken to be an array, as src/component/EditMedication.tsx:32 declares. A record whose tags arrive as JSON text is not modelled: on such text `includes` tests for a substring, so a checkbox click either fails with a TypeError (`filter` on a string) or spreads the text into single characters, and submit's `filter` fails with a TypeError.
- `localeCompare` is locale-dependent. `Text.Compare`, an order by code points, stands in for it.
- `parseInt` and NaN in the days input are JavaScript number semantics. Day counts are integers, and a day count of 0 is the only falsy one.
- `Object.entries` lists non-negative integer keys in ascending order. The model assumes medication ids are such keys, so `Home.SelectedIds` is ascending.
- Browser effects: `window.print`, the date and the patient name, toasts, `alert`, `console.error`, `navigate` (except the flag `EditSet.NewSetForm.HandleSubmit` returns), and the timer that resets the edit form's banner to idle.
- The loading and error views of the home page and of the form screens are not modelled. Only the preview's views are.
- Home.HomePage.HandleMedicationSelect: the catalogue it searches is a parameter, because the fetched catalogue is query data rather than page state.
- EditMedication.EditMedicationForm.HandleSubmit: the 'loading' update status is never set by the source, so the model has no such state.
- src/component/Edit.tsx, src/component/AddMedication.tsx, src/component/MedicationList.tsx and src/App.tsx are not part of this model.
