# KCC_PP_front table logic in Dafny

This project models the data handling inside the React views of the KCC_PP_front dispatch
dashboard and proves properties of it. There are six views:

- **The dispatcher's combined table** (`CombinedTable.jsx`).
  - The 24-slot hour plan of the selected subject: its defaults, and the overlay of the fetched hours.
  - The five single-field edit handlers.
  - The displayed P2 and P2_Gen.
  - The two spreadsheet imports, each with its header check. On the page the generation import's button
    opens the main import's file input, so a generation sheet goes through the main header check (see Findings).
  - The two plan exports and the full export of the subject with its objects.
- **The form-constructor table** (`TableComponent.jsx`).
  - The merge of a subject's result series into `date → key → series → value`. A series may lack `date_value`;
    when the first series has dated values, the merge then throws.
  - The JavaScript key order of that map.
  - The export rows, the rows shown on the page, and the sheet name.
  - The cells of the main table.
  - The three toggles: sub-table visibility, array expansion and object selection.
- **The tariff-direction month grid** (`Directions.jsx`).
  - The Gregorian month length, including the `Date` constructor's two-digit-year rule.
  - The `YYYY-MM-DD` day keys and the query range.
  - The grid every day starts from, with 24 `"NONE"` slots.
  - How tariff records are stored in it.
  - The "No BaseTariffs found" fallback.
- **The direction table** (`DirectionsTable.jsx`).
  - The in-place UP/DOWN toggle of one cell.
  - The `DD.MM.YYYY` day label.
  - The glyph and the colour class of a cell.
- **The user's subject table** (`SubjectTable.jsx`).
  - The day plan and hour plan of the selected subject, with the stable sort by hour.
  - The column sums and averages.
  - The columns each subject type sees.
  - The three colouring modes of the plan-status labels.
- **The user's object table** (`ObjectsTable.jsx`).
  - The `-abbr-` status string.
  - The objects of a subject and the default selection.
  - The positional hour rows.

Module layout:

| module | file | models |
|---|---|---|
| `CombinedTable` | combined_table.dfy | `CombinedTable.jsx`; the plan editor is the class `PlanEditor` over an `array<HourRecord>` |
| `TableComponent` | table_component.dfy | `TableComponent.jsx` |
| `Directions` | directions.dfy | `Directions.jsx`; the grid is the class `DirectionGrid` over an `array2<string>` |
| `DirectionsTable` | directions_table.dfy | `DirectionsTable.jsx` |
| `SubjectTable` | subject_table.dfy | `SubjectTable.jsx` |
| `ObjectsTable` | objects_table.dfy | `ObjectsTable.jsx` |
| `PlanData` | plan_data.dfy | the day-plan and hour-plan lookups the two user tables share |
| `Sheet` | sheet.dfy | spreadsheet cells, and JavaScript's `parseInt(s, 10)` and `parseFloat(s)` on them |
| `Text`, `Seqs`, `Optional` | text.dfy, seqs.dfy, optional.dfy | shared helpers |

Shared helpers:

- Text: decimal rendering, `padStart(2, '0')`, `split`/`join`.
- Seqs: `filter`, `reverse`, distinctness.
- Optional: `Option`.

The style follows the source: the in-place parts are methods with loops, and the expression parts are functions.

- **In place:**
  - `parseExcelData`, `parseGP1ExcelData` and the edit handlers.
  - The nested `forEach` that builds `dateValueMap` and the `wsData.push` loops.
  - The `for` loops of `generateTableData` and of the placeholder tariffs.
  - `toggleCellValue`, which writes through the aliased day arrays.
  - The `displayString +=` loop.
- **Proved against specification functions:** each method's `ensures` ties its result or its new state to a function. The properties are then lemmas about those functions.

Decisions where the code, not a description of it, was followed:

- **Order of an object's keys.** JavaScript enumerates a date's hour keys in ascending numeric order, before the series names. The names keep their insertion order. Insertion order alone would be wrong. `EntryKeys` fixes this order.
- **The generation import checks only header cells 1 and 2.** It ignores cell 0, so it does not require an exact header shape (`GP1HeaderIgnoresFirstCell`).
- **The main import starts from a fresh default plan.** An hour the file does not name is reset to its defaults, not kept (`ImportedSlot`).
- **The export/import round trip holds only for whole volumes.** The volume is read back with `parseInt` (`MainRoundTrip`).
- **Sheet names are only truncated.** Nothing makes them unique.

## Model

Paths below are relative to the repository root.

| member | source | states |
|---|---|---|
| `CombinedTable.DefaultPlan` | src/modules/dispatcher/components/Dashboard/SubjectsTable/CombinedTable.jsx:62-85 | the default plan has 24 slots, and slot i holds hour i + 1 with every plan value 0, both coefficients 1, volumes 0 and empty messages |
| `CombinedTable.FirstWithHour` | src/modules/dispatcher/components/Dashboard/SubjectsTable/CombinedTable.jsx:137 | `find` by hour: none exactly when no record has the hour, otherwise the first index that has it |
| `CombinedTable.OverlayPlan` | src/modules/dispatcher/components/Dashboard/SubjectsTable/CombinedTable.jsx:135-159 | the overlaid plan still has slot i holding hour i + 1 |
| `CombinedTable.OverlayOfNothing` | src/modules/dispatcher/components/Dashboard/SubjectsTable/CombinedTable.jsx:131-159 | with no fetched hours the overlay is exactly the default plan |
| `CombinedTable.OverlaySlot` | src/modules/dispatcher/components/Dashboard/SubjectsTable/CombinedTable.jsx:135-159 | slot h - 1 keeps its default when no record has hour h; otherwise it takes the first such record's fields, with `\|\| 0`, `\|\| ""` and `?? 1` fallbacks (an explicit coefficient of 0 is kept) |
| `CombinedTable.DisplayedP2` | src/modules/dispatcher/components/Dashboard/SubjectsTable/CombinedTable.jsx:1030-1033 | the P2 cell is the stored P2 when it is non-zero, otherwise P1 × coefficient + volume |
| `CombinedTable.DisplayedP2Gen` | src/modules/dispatcher/components/Dashboard/SubjectsTable/CombinedTable.jsx:1094-1097 | the same rule on the generation fields |
| `CombinedTable.StoredP2Wins` | src/modules/dispatcher/components/Dashboard/SubjectsTable/CombinedTable.jsx:1030-1033 | a stored non-zero P2 is shown whatever the coefficient and volume |
| `CombinedTable.ZeroCoefficientShownAsOne` | src/modules/dispatcher/components/Dashboard/SubjectsTable/CombinedTable.jsx:335-340 | a loaded coefficient of 0 is kept, its input shows 1, and P2 is computed with 0, so P2 differs from P1 × shown coefficient + volume |
| `CombinedTable.MissingCoefficientIsOne` | src/modules/dispatcher/components/Dashboard/SubjectsTable/CombinedTable.jsx:150 | a missing coefficient loads as 1, so P2 is P1 + volume |
| `CombinedTable.DisplayedP2Example` | src/modules/dispatcher/components/Dashboard/SubjectsTable/CombinedTable.jsx:335-340 | P1 = 100, coefficient 1.1, volume 5 and P2 = 0 display 115 |
| `CombinedTable.MessageShade` | src/modules/dispatcher/components/Dashboard/SubjectsTable/CombinedTable.jsx:1100-1109 | no shade exactly for an empty message, green exactly for "Успешно!", red for any other message |
| `CombinedTable.ApplyMainRow` | src/modules/dispatcher/components/Dashboard/SubjectsTable/CombinedTable.jsx:792-819 | one data row keeps the plan at 24 slots |
| `CombinedTable.ApplyMainRows` | src/modules/dispatcher/components/Dashboard/SubjectsTable/CombinedTable.jsx:792-819 | applying the data rows keeps slot i holding hour i + 1 |
| `CombinedTable.ImportedPlan` | src/modules/dispatcher/components/Dashboard/SubjectsTable/CombinedTable.jsx:789-823 | the imported plan keeps slot i holding hour i + 1 |
| `CombinedTable.ApplyMainRowsSlot` | src/modules/dispatcher/components/Dashboard/SubjectsTable/CombinedTable.jsx:792-819 | slot h - 1 changes only by the coefficient and volume of the last readable row of hour h |
| `CombinedTable.ImportedSlot` | src/modules/dispatcher/components/Dashboard/SubjectsTable/CombinedTable.jsx:789-823 | after the import, slot h - 1 is the default record of hour h, with the coefficient and volume of the last readable row of hour h if there is one |
| `CombinedTable.SkippedRow` | src/modules/dispatcher/components/Dashboard/SubjectsTable/CombinedTable.jsx:794-818 | a short row, a row with a NaN field, or a row whose hour is outside 1..24 changes nothing |
| `CombinedTable.LaterRowWins` | src/modules/dispatcher/components/Dashboard/SubjectsTable/CombinedTable.jsx:809-811 | a later row for hour h overwrites slot h - 1's coefficient and volume |
| `CombinedTable.ReadGP1Row` | src/modules/dispatcher/components/Dashboard/SubjectsTable/CombinedTable.jsx:417-425 | a row is read exactly when `parseInt` of cell 0 gives an hour in 1..24, with no length check; it reads that hour, `parseFloat(row[1]) \|\| 0` and `parseInt(row[2], 10) \|\| 0` |
| `CombinedTable.ApplyGP1Row` | src/modules/dispatcher/components/Dashboard/SubjectsTable/CombinedTable.jsx:419-427 | one generation row keeps the plan at 24 slots |
| `CombinedTable.ApplyGP1Rows` | src/modules/dispatcher/components/Dashboard/SubjectsTable/CombinedTable.jsx:419-427 | applying the generation rows keeps slot i holding hour i + 1 |
| `CombinedTable.MergedGP1` | src/modules/dispatcher/components/Dashboard/SubjectsTable/CombinedTable.jsx:417-430 | the merged plan keeps slot i holding hour i + 1 |
| `CombinedTable.ApplyGP1RowsSlot` | src/modules/dispatcher/components/Dashboard/SubjectsTable/CombinedTable.jsx:419-427 | the merge changes only the generation coefficient and volume of slot h - 1, to those of the last row of hour h |
| `CombinedTable.MergedSlot` | src/modules/dispatcher/components/Dashboard/SubjectsTable/CombinedTable.jsx:417-427 | after the merge, slot h - 1 is the current record with at most its two generation fields replaced |
| `CombinedTable.PlanEditor.constructor` | src/modules/dispatcher/components/Dashboard/SubjectsTable/CombinedTable.jsx:50-57 | the editor starts with the default plan and no warning |
| `CombinedTable.PlanEditor.Reset` | src/modules/dispatcher/components/Dashboard/SubjectsTable/CombinedTable.jsx:114-122 | with no subject selected the plan becomes the default plan |
| `CombinedTable.PlanEditor.LoadFetched` | src/modules/dispatcher/components/Dashboard/SubjectsTable/CombinedTable.jsx:126-160 | the plan becomes the overlay of the fetched hours |
| `CombinedTable.PlanEditor.ChangeCoefficient` | src/modules/dispatcher/components/Dashboard/SubjectsTable/CombinedTable.jsx:342-346 | only the coefficient of slot `index` changes, to `parseFloat(value) \|\| 0` |
| `CombinedTable.PlanEditor.ChangeCoefficientGen` | src/modules/dispatcher/components/Dashboard/SubjectsTable/CombinedTable.jsx:432-436 | only the generation coefficient of slot `index` changes, to `parseFloat(value) \|\| 0` |
| `CombinedTable.PlanEditor.ChangeVolume` | src/modules/dispatcher/components/Dashboard/SubjectsTable/CombinedTable.jsx:438-442 | only the volume of slot `index` changes, to `parseInt(value, 10) \|\| 0` |
| `CombinedTable.PlanEditor.ChangeVolumeGen` | src/modules/dispatcher/components/Dashboard/SubjectsTable/CombinedTable.jsx:444-448 | only the generation volume of slot `index` changes, to `parseInt(value, 10) \|\| 0` |
| `CombinedTable.PlanEditor.ChangeMessage` | src/modules/dispatcher/components/Dashboard/SubjectsTable/CombinedTable.jsx:450-454 | only the message of slot `index` changes, to the text as typed |
| `CombinedTable.PlanEditor.ParseExcelData` | src/modules/dispatcher/components/Dashboard/SubjectsTable/CombinedTable.jsx:789-823 | the loop leaves exactly `ImportedPlan(rows)` and the success warning |
| `CombinedTable.ApplyMainRowInPlace` | src/modules/dispatcher/components/Dashboard/SubjectsTable/CombinedTable.jsx:792-819 | one import row updates the plan array exactly as `ApplyMainRow` does |
| `CombinedTable.PlanEditor.HandleFileChange` | src/modules/dispatcher/components/Dashboard/SubjectsTable/CombinedTable.jsx:764-779 | with the header "Hour", "Coefficient", "Volume" the plan is imported; otherwise the plan is unchanged and the format warning is set: the outcome is `MainFileOutcome` |
| `CombinedTable.PlanEditor.ParseGP1ExcelData` | src/modules/dispatcher/components/Dashboard/SubjectsTable/CombinedTable.jsx:417-430 | the loop writes in place into the same array, leaving `MergedGP1` of the old plan; the page never runs this handler, see Findings |
| `CombinedTable.PlanEditor.HandleFileChangeGP1` | src/modules/dispatcher/components/Dashboard/SubjectsTable/CombinedTable.jsx:393-407 | with header cells 1 and 2 "Coefficient_Gen" and "Volume_Gen" the rows are merged; otherwise the plan is unchanged and the format warning is set: the outcome is `GP1FileOutcome`; the page never runs this handler, see Findings |
| `CombinedTable.MainFileOutcome` | src/modules/dispatcher/components/Dashboard/SubjectsTable/CombinedTable.jsx:764-779 | the main import reports success exactly when the header is "Hour", "Coefficient", "Volume", and then replaces the plan; otherwise the plan stays and the warning is set |
| `CombinedTable.GP1FileOutcome` | src/modules/dispatcher/components/Dashboard/SubjectsTable/CombinedTable.jsx:393-407 | the generation import reports success exactly when header cells 1 and 2 are "Coefficient_Gen", "Volume_Gen", and then merges the rows; otherwise the plan stays and the warning is set |
| `CombinedTable.PlanEditor.ImportFromFileGP1` | src/modules/dispatcher/components/Dashboard/SubjectsTable/CombinedTable.jsx:375-379 | the generation import button runs the main import's file handler, bound at line 987 |
| `CombinedTable.GP1ButtonAsWritten` | src/modules/dispatcher/components/Dashboard/SubjectsTable/CombinedTable.jsx:375-379 | through that button the generation export is refused with the main format warning and the plan kept, and a sheet it accepts resets every generation coefficient and volume to its default |
| `CombinedTable.GP1ButtonIntended` | src/modules/dispatcher/components/Dashboard/SubjectsTable/CombinedTable.jsx:381-412 | the generation handler accepts the generation export and leaves the plan as it was, and no sheet changes a main coefficient or volume |
| `CombinedTable.ReadMainRow` | src/modules/dispatcher/components/Dashboard/SubjectsTable/CombinedTable.jsx:794-800 | a main import row is read exactly when it has three cells and all three parse |
| `CombinedTable.EditedValues` | src/modules/dispatcher/components/Dashboard/SubjectsTable/CombinedTable.jsx:438-442 | text without a digit is stored as 0, and "12.7" is stored as volume 12 |
| `CombinedTable.MainExportData` | src/modules/dispatcher/components/Dashboard/SubjectsTable/CombinedTable.jsx:826-832 | one exported data row per slot |
| `CombinedTable.GP1ExportData` | src/modules/dispatcher/components/Dashboard/SubjectsTable/CombinedTable.jsx:349-356 | one exported generation row per slot |
| `CombinedTable.ReadMainExportRow` | src/modules/dispatcher/components/Dashboard/SubjectsTable/CombinedTable.jsx:826-832 | the importer reads exported row i back as hour i + 1 with its coefficient and volume |
| `CombinedTable.MainRoundTrip` | src/modules/dispatcher/components/Dashboard/SubjectsTable/CombinedTable.jsx:789-833 | export then import passes the header check and gives every slot back its coefficient and whole volume; every other field is reset |
| `CombinedTable.ReadGP1ExportRow` | src/modules/dispatcher/components/Dashboard/SubjectsTable/CombinedTable.jsx:349-356 | the generation importer reads exported row i back as hour i + 1 |
| `CombinedTable.GP1RoundTrip` | src/modules/dispatcher/components/Dashboard/SubjectsTable/CombinedTable.jsx:348-430 | merging the generation export back into its own plan passes the header check and changes nothing; the page never runs this handler, see Findings |
| `CombinedTable.ExportsAreNotInterchangeable` | src/modules/dispatcher/components/Dashboard/SubjectsTable/CombinedTable.jsx:395-400 | each import's header check rejects the other export's sheet |
| `CombinedTable.GP1HeaderIgnoresFirstCell` | src/modules/dispatcher/components/Dashboard/SubjectsTable/CombinedTable.jsx:395-400 | the generation header check does not depend on header cell 0 |
| `CombinedTable.TimeIntervalEnds` | src/modules/dispatcher/components/Dashboard/SubjectsTable/CombinedTable.jsx:5-30 | the intervals run from "00 - 01" to "23 - 00" |
| `CombinedTable.TimeInterval` | src/modules/dispatcher/components/Dashboard/SubjectsTable/CombinedTable.jsx:5-30 | interval i is the two-digit hour i, " - ", and the two-digit next hour, wrapping at 24 |
| `CombinedTable.TimeIntervalsDistinct` | src/modules/dispatcher/components/Dashboard/SubjectsTable/CombinedTable.jsx:5-30 | no two intervals share a label |
| `CombinedTable.SubjectHeader` | src/modules/dispatcher/components/Dashboard/SubjectsTable/CombinedTable.jsx:466-485 | the subject header has 12 cells, plus 5 generation columns, plus "Message" when shown |
| `CombinedTable.SubjectRow` | src/modules/dispatcher/components/Dashboard/SubjectsTable/CombinedTable.jsx:488-521 | a subject row has 11 cells, plus 5 generation cells, plus the message when shown; its cells are given by `SubjectRowCells` |
| `CombinedTable.ValueColumns` | src/modules/dispatcher/components/Dashboard/SubjectsTable/CombinedTable.jsx:466-477 | the time cell, then P1, P2, P3, F1, F2, each followed by its generation value when generation is shown |
| `CombinedTable.RecordRowCells` | src/modules/dispatcher/components/Dashboard/SubjectsTable/CombinedTable.jsx:488-521 | a row built from one plan record holds its interval, its values and generation values in column order, then coefficient, coefficient_gen, volume, volume_gen, P2 message and, when shown, the message |
| `CombinedTable.SubjectRowCells` | src/modules/dispatcher/components/Dashboard/SubjectsTable/CombinedTable.jsx:488-521 | row i holds the values of `plan[i]` in column order, with the coefficient written as `\|\| 1`; past the end of the plan every value is 0 |
| `CombinedTable.SubjectRowOneShort` | src/modules/dispatcher/components/Dashboard/SubjectsTable/CombinedTable.jsx:466-521 | every subject row is one cell narrower than its header; with the message column on, the message lands under "P2_Gen_message" |
| `CombinedTable.ExportedCoefficient` | src/modules/dispatcher/components/Dashboard/SubjectsTable/CombinedTable.jsx:514-515 | the exported coefficient is `coefficient \|\| 1`, so a 0 is written as 1 |
| `CombinedTable.SubjectTableRows` | src/modules/dispatcher/components/Dashboard/SubjectsTable/CombinedTable.jsx:488-522 | the subject table is a header plus 24 rows |
| `CombinedTable.ObjectHeader` | src/modules/dispatcher/components/Dashboard/SubjectsTable/CombinedTable.jsx:529-542 | an object header has 7 cells plus 5 generation columns |
| `CombinedTable.ObjectRow` | src/modules/dispatcher/components/Dashboard/SubjectsTable/CombinedTable.jsx:545-572 | an object row is as wide as its header; its cells are given by `ObjectRowCells` and `ObjectRowWithoutRecord` |
| `CombinedTable.FetchedForFirst` | src/modules/dispatcher/components/Dashboard/SubjectsTable/CombinedTable.jsx:546-547 | `find` gives the first fetched record of the hour, and none when no record has that hour |
| `CombinedTable.ObjectRowCells` | src/modules/dispatcher/components/Dashboard/SubjectsTable/CombinedTable.jsx:545-572 | row i holds the interval, then P1 to F2 of the first fetched record of hour i + 1, each `\|\| 0` and followed by its generation value when shown, and last its P2 message `\|\| ""` |
| `CombinedTable.ZeroColumns` | src/modules/dispatcher/components/Dashboard/SubjectsTable/CombinedTable.jsx:548-569 | with every value 0 the value columns after the time hold only 0 |
| `CombinedTable.ObjectRowWithoutRecord` | src/modules/dispatcher/components/Dashboard/SubjectsTable/CombinedTable.jsx:545-572 | without a fetched record of the hour every value cell is 0 and the message is empty |
| `CombinedTable.ObjectTableRows` | src/modules/dispatcher/components/Dashboard/SubjectsTable/CombinedTable.jsx:543-573 | an object table is a header plus 24 rows |
| `CombinedTable.ObjectTableRectangular` | src/modules/dispatcher/components/Dashboard/SubjectsTable/CombinedTable.jsx:529-573 | every row of an object table is as wide as its header |
| `CombinedTable.ObjectsData` | src/modules/dispatcher/components/Dashboard/SubjectsTable/CombinedTable.jsx:525-578 | one table per object of the subject |
| `CombinedTable.ObjectsDataTables` | src/modules/dispatcher/components/Dashboard/SubjectsTable/CombinedTable.jsx:525-578 | every object table has 25 rows |
| `CombinedTable.BlocksLength` | src/modules/dispatcher/components/Dashboard/SubjectsTable/CombinedTable.jsx:589-594 | each object adds 28 rows |
| `CombinedTable.BlocksAt` | src/modules/dispatcher/components/Dashboard/SubjectsTable/CombinedTable.jsx:589-594 | row 28k + j of the blocks is row j of object k's block |
| `CombinedTable.PushBlocks` | src/modules/dispatcher/components/Dashboard/SubjectsTable/CombinedTable.jsx:589-594 | the push loop appends the blocks in order |
| `CombinedTable.ExportHead` | src/modules/dispatcher/components/Dashboard/SubjectsTable/CombinedTable.jsx:580-586 | 29 rows: the subject's name line, a blank row, the "Subject Table" title, the 25-row subject table and a blank row |
| `CombinedTable.FullExport` | src/modules/dispatcher/components/Dashboard/SubjectsTable/CombinedTable.jsx:580-594 | none (the throw) exactly when no subject is selected; otherwise the sheet starts with `ExportHead` |
| `CombinedTable.BuildFullExport` | src/modules/dispatcher/components/Dashboard/SubjectsTable/CombinedTable.jsx:464-594 | the built sheet is `FullExport`: none when no subject is selected, because `selectedSubject.subject_name` at line 582 throws |
| `CombinedTable.FullExportLayout` | src/modules/dispatcher/components/Dashboard/SubjectsTable/CombinedTable.jsx:581-594 | with a subject selected the export is written; the subject takes 29 rows; block k starts at row 29 + 28k with the name of the k-th object of the selected subject |
| `TableComponent.TouchDate` | src/modules/admin/components/Forms/FormConstructor/TableComponent.jsx:88-90 | visiting a date makes it a key |
| `TableComponent.HourWrites` | src/modules/admin/components/Forms/FormConstructor/TableComponent.jsx:93-99 | one write per hourly item |
| `TableComponent.HourUpdate` | src/modules/admin/components/Forms/FormConstructor/TableComponent.jsx:95-98 | the create-then-assign of an hour key is one `PutHour` |
| `TableComponent.StoreHours` | src/modules/admin/components/Forms/FormConstructor/TableComponent.jsx:93-99 | the innermost loop performs exactly the hourly writes in array order |
| `TableComponent.MergeItem` | src/modules/admin/components/Forms/FormConstructor/TableComponent.jsx:86-103 | one dated item performs its visit, then its scalar or hourly writes |
| `TableComponent.MergeSeries` | src/modules/admin/components/Forms/FormConstructor/TableComponent.jsx:85-104 | the middle loop performs the writes of every item of the series in order |
| `TableComponent.BuildDateValueMap` | src/modules/admin/components/Forms/FormConstructor/TableComponent.jsx:83-105 | the nested loops throw exactly when some series has no `date_value`, and otherwise build exactly `Aggregate(data)` |
| `TableComponent.Aggregate` | src/modules/admin/components/Forms/FormConstructor/TableComponent.jsx:83-105 | the merged map lists each date once, in first-visit order, with exactly its keys |
| `TableComponent.EntryKeys` | src/modules/admin/components/Forms/FormConstructor/TableComponent.jsx:109 | `Object.keys` of a date entry lists its hour keys first, then its series names |
| `TableComponent.ExportSheet` | src/modules/admin/components/Forms/FormConstructor/TableComponent.jsx:65-144 | a sheet that is built starts with the header; without dated values it is the header and one row |
| `TableComponent.ApplyEntry` | src/modules/admin/components/Forms/FormConstructor/TableComponent.jsx:83-105 | a write changes only the object of its own date |
| `TableComponent.DatesOfWrites` | src/modules/admin/components/Forms/FormConstructor/TableComponent.jsx:88-90 | a date is a key exactly when some write names it |
| `TableComponent.ScalarLookup` | src/modules/admin/components/Forms/FormConstructor/TableComponent.jsx:102 | a name is stored exactly when some scalar write used it, and holds the last value written |
| `TableComponent.HourKeyLookup` | src/modules/admin/components/Forms/FormConstructor/TableComponent.jsx:95-97 | an hour key exists exactly when some hourly write of that date used it |
| `TableComponent.HourLookup` | src/modules/admin/components/Forms/FormConstructor/TableComponent.jsx:98 | under an hour, a name holds the last value written for it |
| `TableComponent.MapFoldWellFormed` | src/modules/admin/components/Forms/FormConstructor/TableComponent.jsx:107 | the dates are listed once each, in first-visit order, and are exactly the keys |
| `TableComponent.Insert` | src/modules/admin/components/Forms/FormConstructor/TableComponent.jsx:109 | a new hour key goes into its place in ascending order and is listed once |
| `TableComponent.EntryKeysCover` | src/modules/admin/components/Forms/FormConstructor/TableComponent.jsx:109 | `Object.keys` yields every hour and scalar name of the object, and nothing else |
| `TableComponent.EntryKeysOrder` | src/modules/admin/components/Forms/FormConstructor/TableComponent.jsx:109 | hour keys come first, strictly ascending, then the names in insertion order |
| `TableComponent.ItemWriteKinds` | src/modules/admin/components/Forms/FormConstructor/TableComponent.jsx:86-103 | an item's writes are under its date: a scalar write for a single value, hourly writes for an array |
| `TableComponent.AggregateDates` | src/modules/admin/components/Forms/FormConstructor/TableComponent.jsx:84-90 | a date is a key exactly when some item of some series has it, even with an empty hourly array |
| `TableComponent.AggregateScalarKeys` | src/modules/admin/components/Forms/FormConstructor/TableComponent.jsx:100-103 | a name is a key of a date exactly when that series has a single-value item on that date |
| `TableComponent.ScalarKeyHasItem` | src/modules/admin/components/Forms/FormConstructor/TableComponent.jsx:100-103 | a stored name key comes from a single-value item of that series on that date |
| `TableComponent.ScalarItemStoresKey` | src/modules/admin/components/Forms/FormConstructor/TableComponent.jsx:100-103 | a single-value item of a series on a date stores the series name under that date |
| `TableComponent.AggregateHourKeys` | src/modules/admin/components/Forms/FormConstructor/TableComponent.jsx:91-99 | an hour is a key of a date exactly when some hourly item on that date lists it |
| `TableComponent.HourKeyHasItem` | src/modules/admin/components/Forms/FormConstructor/TableComponent.jsx:91-99 | a stored hour key comes from an hourly item on that date that lists the hour |
| `TableComponent.HourItemStoresKey` | src/modules/admin/components/Forms/FormConstructor/TableComponent.jsx:91-99 | an hourly item on a date that lists an hour stores that hour under the date |
| `TableComponent.LaterSeriesWins` | src/modules/admin/components/Forms/FormConstructor/TableComponent.jsx:102 | a later scalar write of a name overwrites the earlier value |
| `TableComponent.AggregateWellFormed` | src/modules/admin/components/Forms/FormConstructor/TableComponent.jsx:83-105 | the merged map and each of its objects list their keys exactly once |
| `TableComponent.ValueCell` | src/modules/admin/components/Forms/FormConstructor/TableComponent.jsx:117 | a value becomes a number cell, and null or undefined becomes '-' |
| `TableComponent.SeriesCells` | src/modules/admin/components/Forms/FormConstructor/TableComponent.jsx:115-118 | exactly one cell per series, in series order |
| `TableComponent.KeyCells` | src/modules/admin/components/Forms/FormConstructor/TableComponent.jsx:115-117 | a key row that does not throw has one cell per series |
| `TableComponent.Header` | src/modules/admin/components/Forms/FormConstructor/TableComponent.jsx:70-78 | the header is "Дата", then "Час" in hour mode, then "Субъект", then the series names |
| `TableComponent.FallbackRow` | src/modules/admin/components/Forms/FormConstructor/TableComponent.jsx:134-143 | the fallback row has two cells plus one per series |
| `TableComponent.ExportRectangular` | src/modules/admin/components/Forms/FormConstructor/TableComponent.jsx:70-132 | with dated values, every written row is as wide as the header |
| `TableComponent.FallbackMisaligned` | src/modules/admin/components/Forms/FormConstructor/TableComponent.jsx:133-144 | without dated values the sheet is the header and one row, and in hour mode that row is one cell short |
| `TableComponent.KeyRowsThrowIff` | src/modules/admin/components/Forms/FormConstructor/TableComponent.jsx:109-120 | in hour mode a date's rows throw exactly when the date holds null under a series name |
| `TableComponent.KeyRowsThrowOnNull` | src/modules/admin/components/Forms/FormConstructor/TableComponent.jsx:109-120 | a date's rows throw only if the date holds a null under a series name |
| `TableComponent.NullThrows` | src/modules/admin/components/Forms/FormConstructor/TableComponent.jsx:116 | reading a series from a null scalar throws |
| `TableComponent.HourBodyThrowsIff` | src/modules/admin/components/Forms/FormConstructor/TableComponent.jsx:107-120 | the hour-mode body throws exactly when some date holds a null scalar |
| `TableComponent.ExportThrowsIff` | src/modules/admin/components/Forms/FormConstructor/TableComponent.jsx:81-144 | the export throws exactly when the first series has dated values and either some series has no `date_value` (its `forEach` fails) or, in hour mode, the merged map holds a null scalar |
| `TableComponent.DateModeRows` | src/modules/admin/components/Forms/FormConstructor/TableComponent.jsx:121-131 | in date mode the sheet is the header and one row per date, in first-visit order |
| `TableComponent.PushKeyRows` | src/modules/admin/components/Forms/FormConstructor/TableComponent.jsx:109-120 | the key loop pushes exactly `KeyRows`, or throws when it is None |
| `TableComponent.PushDateGroup` | src/modules/admin/components/Forms/FormConstructor/TableComponent.jsx:108-131 | the rows of one date are pushed as `DateRows` says |
| `TableComponent.PushDateRows` | src/modules/admin/components/Forms/FormConstructor/TableComponent.jsx:107-132 | the date loop pushes exactly `BodyRows` |
| `TableComponent.ExportSubjectToExcel` | src/modules/admin/components/Forms/FormConstructor/TableComponent.jsx:65-144 | the method builds exactly `ExportSheet` |
| `TableComponent.ViewHeader` | src/modules/admin/components/Forms/FormConstructor/TableComponent.jsx:426-446 | the page's header is the export header without "Субъект" |
| `TableComponent.SubjectTableView` | src/modules/admin/components/Forms/FormConstructor/TableComponent.jsx:424-525 | the notice "Нет данных для отображения" is shown exactly when the first series has no dated values; otherwise the grid's header is `ViewHeader` |
| `TableComponent.ViewKeyRowsMatch` | src/modules/admin/components/Forms/FormConstructor/TableComponent.jsx:476-501 | in hour mode the page shows each export key row without the subject cell, with the date only on the first row |
| `TableComponent.ViewGroupMatchesExport` | src/modules/admin/components/Forms/FormConstructor/TableComponent.jsx:475-518 | per date, the page throws exactly when the export does, and row k is the export's row k in shown form |
| `TableComponent.ShownDateRow` | src/modules/admin/components/Forms/FormConstructor/TableComponent.jsx:502-516 | in date mode a shown row is the date and the series cells |
| `TableComponent.ViewMatchesExport` | src/modules/admin/components/Forms/FormConstructor/TableComponent.jsx:448-520 | the page throws exactly when the export does, and shows one row per exported data row |
| `TableComponent.SheetName` | src/modules/admin/components/Forms/FormConstructor/TableComponent.jsx:148-156 | the name is a prefix of `name_subject` of at most 31 characters, equal to it exactly when it is short enough |
| `TableComponent.ToggleFlag` | src/modules/admin/components/Forms/FormConstructor/TableComponent.jsx:40-45 | the flag under the key is negated, and every other flag and key is unchanged |
| `TableComponent.SubTableKeyInjective` | src/modules/admin/components/Forms/FormConstructor/TableComponent.jsx:401 | two rows share a sub-table key exactly when their subject and object lists are equal |
| `TableComponent.ToggleSubTableOnly` | src/modules/admin/components/Forms/FormConstructor/TableComponent.jsx:40-45 | toggling one row's sub-table flips only that row's visibility |
| `TableComponent.CellKeyInjective` | src/modules/admin/components/Forms/FormConstructor/TableComponent.jsx:49 | distinct cells have distinct `t-r-c` keys |
| `TableComponent.ToggleExpandedOnly` | src/modules/admin/components/Forms/FormConstructor/TableComponent.jsx:48-54 | toggling a cell opens or closes that cell's array and no other cell's |
| `TableComponent.MainCellView` | src/modules/admin/components/Forms/FormConstructor/TableComponent.jsx:363-385 | grouped tables show '-'; an array shows the button, with the array exactly when expanded; a number shows itself and null shows '-' |
| `TableComponent.ToggleObject` | src/modules/admin/components/Forms/FormConstructor/TableComponent.jsx:56-62 | the id's membership flips and other ids are unchanged; an absent id is appended; a present id is removed with every copy, as `filter` does; no duplicates are introduced |
| `TableComponent.ToggleObjectTwice` | src/modules/admin/components/Forms/FormConstructor/TableComponent.jsx:56-62 | toggling an absent id twice restores the list, and a present id ends at the end |
| `Directions.FullYear` | src/modules/admin/components/Tariffs/Directions/Directions.jsx:96 | years 0..99 mean 1900..1999 |
| `Directions.DaysInMonth` | src/modules/admin/components/Tariffs/Directions/Directions.jsx:96 | 28..31 days; February has 29 exactly in Gregorian leap years; April, June, September and November have 30 |
| `Directions.YearLength` | src/modules/admin/components/Tariffs/Directions/Directions.jsx:96 | the twelve months add up to 365 or, in leap years, 366 |
| `Directions.DateKeySuffix` | src/modules/admin/components/Tariffs/Directions/Directions.jsx:103 | a key is a month prefix followed by the two-digit day |
| `Directions.DateKeyInjective` | src/modules/admin/components/Tariffs/Directions/Directions.jsx:103 | distinct days of a month have distinct keys |
| `Directions.DatePartOfDateKey` | src/modules/admin/components/Tariffs/Directions/Directions.jsx:109 | `split('T')[0]` returns a day key unchanged |
| `Directions.MonthKeys` | src/modules/admin/components/Tariffs/Directions/Directions.jsx:102-105 | one key per day 1..daysInMonth, in order |
| `Directions.MonthKeysDistinct` | src/modules/admin/components/Tariffs/Directions/Directions.jsx:102-105 | the month's keys are distinct |
| `Directions.QueryRange` | src/modules/admin/components/Tariffs/Directions/Directions.jsx:50-51 | `start_date` is the first day's key; `end_date` is the last day's key when the month has at least 10 days, which is always |
| `Directions.FindDay` | src/modules/admin/components/Tariffs/Directions/Directions.jsx:113 | none exactly when no day has the key, otherwise the first day that has it |
| `Directions.BlankTable` | src/modules/admin/components/Tariffs/Directions/Directions.jsx:102-105 | one entry per day of the month, 24 slots each |
| `Directions.ApplyTariff` | src/modules/admin/components/Tariffs/Directions/Directions.jsx:108-116 | a tariff keeps every day's key and 24 slots |
| `Directions.ApplyTariffs` | src/modules/admin/components/Tariffs/Directions/Directions.jsx:108-116 | the tariffs keep every day's key and 24 slots |
| `Directions.TableData` | src/modules/admin/components/Tariffs/Directions/Directions.jsx:94-129 | one entry per day, in ascending order, keyed `YYYY-MM-DD`, with 24 slots |
| `Directions.LastTariff` | src/modules/admin/components/Tariffs/Directions/Directions.jsx:108-116 | none exactly when no tariff is for the slot, otherwise a tariff that is for it, with no later one |
| `Directions.SlotAfterTariffs` | src/modules/admin/components/Tariffs/Directions/Directions.jsx:108-116 | each slot holds the direction of the last tariff for it, or what it held before |
| `Directions.TableDataSlot` | src/modules/admin/components/Tariffs/Directions/Directions.jsx:94-129 | each slot of `tableData` holds the last tariff's direction for its day and hour, or "NONE" |
| `Directions.OutsideMonthIgnored` | src/modules/admin/components/Tariffs/Directions/Directions.jsx:113-115 | a tariff dated outside the month changes nothing |
| `Directions.PlaceholderTariffs` | src/modules/admin/components/Tariffs/Directions/Directions.jsx:74-83 | daysInMonth × 24 records, where record k is day k / 24 + 1, hour k % 24 + 1, "NONE" |
| `Directions.NoneTariffsKeep` | src/modules/admin/components/Tariffs/Directions/Directions.jsx:108-116 | writing "NONE" into an all-"NONE" grid leaves it as it is |
| `Directions.PlaceholderGridIsBlank` | src/modules/admin/components/Tariffs/Directions/Directions.jsx:68-85 | the fallback grid is the blank month: every slot "NONE" |
| `Directions.DirectionGrid.Table` | src/modules/admin/components/Tariffs/Directions/Directions.jsx:119-123 | the grid read as `tableData`: one entry per day key, 24 slots each |
| `Directions.DirectionGrid.constructor` | src/modules/admin/components/Tariffs/Directions/Directions.jsx:99-105 | the initialisation loop builds the blank month |
| `Directions.MonthKeyList` | src/modules/admin/components/Tariffs/Directions/Directions.jsx:102-105 | the loop yields the month's day keys, one per day in order |
| `Directions.DirectionGrid.BlankGrid` | src/modules/admin/components/Tariffs/Directions/Directions.jsx:99-105 | a grid holding the month's keys and only "NONE" slots shows the blank month |
| `Directions.DirectionGrid.Put` | src/modules/admin/components/Tariffs/Directions/Directions.jsx:114 | one slot of one day changes, and nothing else does |
| `Directions.DirectionGrid.StoreTariffs` | src/modules/admin/components/Tariffs/Directions/Directions.jsx:108-116 | the loop leaves `ApplyTariffs` of the old grid |
| `Directions.DirectionGrid.StoreTariff` | src/modules/admin/components/Tariffs/Directions/Directions.jsx:109-115 | one tariff sets the slot of its day and hour when its day is in the month, and the grid is otherwise unchanged, as `ApplyTariff` says |
| `Directions.GenerateTableData` | src/modules/admin/components/Tariffs/Directions/Directions.jsx:94-129 | the built grid reads as `TableData(year, month, tariffs)` |
| `Directions.DayPlaceholders` | src/modules/admin/components/Tariffs/Directions/Directions.jsx:75-82 | one day's placeholders are hours 1..24, "NONE" |
| `Directions.PlaceholderAt` | src/modules/admin/components/Tariffs/Directions/Directions.jsx:74-83 | hour h + 1 of day d + 1 is at index 24d + h |
| `Directions.PushDay` | src/modules/admin/components/Tariffs/Directions/Directions.jsx:75-82 | the inner loop appends one day's placeholders |
| `Directions.EmptyTariffs` | src/modules/admin/components/Tariffs/Directions/Directions.jsx:71-83 | the nested loops build exactly `PlaceholderTariffs` |
| `Directions.FetchTariffs` | src/modules/admin/components/Tariffs/Directions/Directions.jsx:47-92 | records give `TableData`; the "No BaseTariffs found" error gives the blank month; any other failure keeps the current grid |
| `DirectionsTable.ToggleDirection` | src/modules/admin/components/Tariffs/Directions/DirectionsTable.jsx:14 | the result is "UP" or "DOWN", and it is "DOWN" exactly when the value was "UP" |
| `DirectionsTable.ToggleTwice` | src/modules/admin/components/Tariffs/Directions/DirectionsTable.jsx:14 | toggling twice restores exactly "UP" and "DOWN"; any other value becomes "UP" and then "DOWN" |
| `DirectionsTable.ToggleCell` | src/modules/admin/components/Tariffs/Directions/DirectionsTable.jsx:8-22 | only slot hour - 1 of the first day with the key flips; without such a day nothing changes |
| `DirectionsTable.ToggleCellOfMonth` | src/modules/admin/components/Tariffs/Directions/DirectionsTable.jsx:10-15 | in a month's grid, toggling a day's hour flips that one slot |
| `DirectionsTable.ToggleCellValue` | src/modules/admin/components/Tariffs/Directions/DirectionsTable.jsx:8-22 | the in-place write through the aliased day array leaves `ToggleCell` of the old grid |
| `DirectionsTable.DayLabelOfDateKey` | src/modules/admin/components/Tariffs/Directions/DirectionsTable.jsx:45 | "YYYY-MM-DD" is labelled "DD.MM.YYYY" |
| `DirectionsTable.DayLabelOfFields` | src/modules/admin/components/Tariffs/Directions/DirectionsTable.jsx:45 | three dash-free fields joined by dashes are shown reversed and joined by dots |
| `DirectionsTable.Glyph` | src/modules/admin/components/Tariffs/Directions/DirectionsTable.jsx:52 | a glyph is shown exactly for "UP" and "DOWN": "↑" for "UP", "↓" for "DOWN" |
| `DirectionsTable.CellColour` | src/modules/admin/components/Tariffs/Directions/DirectionsTable.jsx:49 | a colour is set exactly for "UP" and "DOWN": "bg-red-100" for "UP", "bg-green-100" for "DOWN" |
| `DirectionsTable.ToggledCellShows` | src/modules/admin/components/Tariffs/Directions/DirectionsTable.jsx:49-52 | a toggled cell always shows an arrow; ↑ goes with red and ↓ with green |
| `PlanData.FindDayPlan` | src/modules/user/components/Dashboard/SubjectsTable/SubjectTable.jsx:25-29 | none exactly when no day plan matches owner and date part; otherwise the first one that matches |
| `PlanData.HoursOfDay` | src/modules/user/components/Dashboard/SubjectsTable/SubjectTable.jsx:30 | exactly the hour rows whose day is `===` the day plan's id (undefined without a day plan, so rows with a null day are dropped); `filter` keeps them in list order (see `HoursOfDayAppend`) |
| `PlanData.HoursOfDayAppend` | src/modules/user/components/Dashboard/SubjectsTable/SubjectTable.jsx:30 | `filter` distributes over concatenation, so the hour rows keep their list order |
| `PlanData.HoursOfDaySingle` | src/modules/user/components/Dashboard/SubjectsTable/SubjectTable.jsx:30 | one hour row is kept exactly when its day is `===` the day plan's id |
| `PlanData.IdOf` | src/modules/user/components/Dashboard/SubjectsTable/SubjectTable.jsx:30 | an optional id is undefined or the id itself, never null |
| `PlanData.DayId` | src/modules/user/components/Dashboard/SubjectsTable/SubjectTable.jsx:30 | `dayPlan?.id` is undefined without a day plan and the plan's id otherwise |
| `PlanData.NullDayDropped` | src/modules/user/components/Dashboard/SubjectsTable/SubjectTable.jsx:30 | no kept row has a null day; without a day plan exactly the rows with no day are kept; with one, exactly the rows with its id |
| `PlanData.NullDayExample` | src/modules/user/components/Dashboard/SubjectsTable/ObjectsTable.jsx:22 | a row with a null day is dropped when there is no day plan |
| `PlanData.DefaultSelection` | src/modules/user/components/Dashboard/SubjectsTable/SubjectTable.jsx:173-180 | with nothing selected the first id is chosen; otherwise the selection is kept |
| `PlanData.DefaultSelectionStable` | src/modules/user/components/Dashboard/SubjectsTable/ObjectsTable.jsx:128-135 | rerunning the effect changes nothing, and the result is 0, the old selection or a listed id |
| `SubjectTable.InsertByHour` | src/modules/user/components/Dashboard/SubjectsTable/SubjectTable.jsx:31 | inserting adds one row |
| `SubjectTable.SortByHour` | src/modules/user/components/Dashboard/SubjectsTable/SubjectTable.jsx:31 | sorting keeps the length |
| `SubjectTable.InsertByHourPermutes` | src/modules/user/components/Dashboard/SubjectsTable/SubjectTable.jsx:31 | an insertion adds exactly that row |
| `SubjectTable.InsertByHourSorted` | src/modules/user/components/Dashboard/SubjectsTable/SubjectTable.jsx:31 | an insertion keeps the rows sorted by hour |
| `SubjectTable.InsertByHourStable` | src/modules/user/components/Dashboard/SubjectsTable/SubjectTable.jsx:31 | the inserted row goes after the rows of its hour |
| `SubjectTable.SortByHourCorrect` | src/modules/user/components/Dashboard/SubjectsTable/SubjectTable.jsx:31 | the hour plan is sorted by hour, is a permutation of the input, and keeps equal hours in input order |
| `SubjectTable.SortByHourOfSorted` | src/modules/user/components/Dashboard/SubjectsTable/SubjectTable.jsx:31 | a plan already in hour order is unchanged |
| `SubjectTable.CompleteHoursAreInOrder` | src/modules/user/components/Dashboard/SubjectsTable/SubjectTable.jsx:318-349 | 24 strictly ascending hours in 1..24 are 1..24 |
| `SubjectTable.HoursDistinctPermuted` | src/modules/user/components/Dashboard/SubjectsTable/SubjectTable.jsx:31 | a permutation keeps the hours distinct |
| `SubjectTable.SortedCompleteDay` | src/modules/user/components/Dashboard/SubjectsTable/SubjectTable.jsx:318-349 | with each hour present once, table row i shows the record of hour i + 1 |
| `SubjectTable.SummarySum` | src/modules/user/components/Dashboard/SubjectsTable/SubjectTable.jsx:186-209 | the sum is null exactly for generation columns of "CONSUMER" and "РЭК", and is the `\|\| 0` column sum otherwise |
| `SubjectTable.SummaryAverage` | src/modules/user/components/Dashboard/SubjectsTable/SubjectTable.jsx:211-242 | the average is null exactly where the sum is; otherwise it is the sum divided by the number of hour rows, and 0 with no rows |
| `SubjectTable.HourPlan` | src/modules/user/components/Dashboard/SubjectsTable/SubjectTable.jsx:25-31 | the hour plan is sorted by hour and is a permutation of the hour rows `HoursOfDay` keeps, so a null-day row never appears |
| `SubjectTable.CellValue` | src/modules/user/components/Dashboard/SubjectsTable/SubjectTable.jsx:322-347 | a cell shows the row's value in its column, and 0 when the row or the value is missing |
| `SubjectTable.ColumnAverage` | src/modules/user/components/Dashboard/SubjectsTable/SubjectTable.jsx:211-242 | the column average times the number of rows is the column sum, and 0 with no rows |
| `SubjectTable.SortKeepsColumnSum` | src/modules/user/components/Dashboard/SubjectsTable/SubjectTable.jsx:186 | sorting does not change any column sum |
| `SubjectTable.ColumnSumBounds` | src/modules/user/components/Dashboard/SubjectsTable/SubjectTable.jsx:186-209 | the sum lies between n × the lowest value and n × the highest |
| `SubjectTable.ColumnAverageBounds` | src/modules/user/components/Dashboard/SubjectsTable/SubjectTable.jsx:211-242 | a non-empty average lies between the lowest and the highest value |
| `SubjectTable.ModeOf` | src/modules/user/components/Dashboard/SubjectsTable/SubjectTable.jsx:277-283 | "ВИЭ" gets the renewable mode; "CONSUMER" and "РЭК" get main-only; every other type gets combined |
| `SubjectTable.StatusDisplay` | src/modules/user/components/Dashboard/SubjectsTable/SubjectTable.jsx:83-171 | "Нет данных" exactly for a missing or empty status map; otherwise four labels П1, П2, П3, Ф |
| `SubjectTable.CombinedGreenIff` | src/modules/user/components/Dashboard/SubjectsTable/SubjectTable.jsx:93-106 | in combined mode a label is green exactly when both statuses are "COMPLETED" |
| `SubjectTable.RenewableIgnoresMainStatuses` | src/modules/user/components/Dashboard/SubjectsTable/SubjectTable.jsx:115-140 | the renewable mode reads only generation statuses |
| `SubjectTable.MainOnlyIgnoresGenStatuses` | src/modules/user/components/Dashboard/SubjectsTable/SubjectTable.jsx:141-169 | the main-only mode reads only main statuses |
| `SubjectTable.CombinedDemotesHalfCompleted` | src/modules/user/components/Dashboard/SubjectsTable/SubjectTable.jsx:93-161 | a completed main plan with an incomplete generation plan shows black in combined mode and green in main-only mode |
| `ObjectsTable.ObjectsOfSubject` | src/modules/user/components/Dashboard/SubjectsTable/ObjectsTable.jsx:125 | exactly the objects of the subject, no more than the list holds |
| `ObjectsTable.DefaultObjectOfSubject` | src/modules/user/components/Dashboard/SubjectsTable/ObjectsTable.jsx:128-135 | with nothing selected, the id of the first object of the subject in list order is selected, and 0 when the subject has no object |
| `ObjectsTable.ObjectsOfSubjectAppend` | src/modules/user/components/Dashboard/SubjectsTable/ObjectsTable.jsx:125 | `filter` distributes over concatenation, so the objects stay in list order |
| `ObjectsTable.ObjectsOfSubjectSnoc` | src/modules/user/components/Dashboard/SubjectsTable/ObjectsTable.jsx:125 | one more object is appended to the result exactly when it belongs to the subject |
| `ObjectsTable.NoObjectsOfSubject` | src/modules/user/components/Dashboard/SubjectsTable/ObjectsTable.jsx:125 | a list with no object of the subject filters to the empty list |
| `ObjectsTable.FirstObjectOfSubject` | src/modules/user/components/Dashboard/SubjectsTable/ObjectsTable.jsx:125-132 | `objects[0]` is the earliest object of the subject in the list |
| `ObjectsTable.ObjectHourPlan` | src/modules/user/components/Dashboard/SubjectsTable/ObjectsTable.jsx:21-22 | the hour plan holds exactly the hour rows `HoursOfDay` keeps for the object's day plan for the date |
| `ObjectsTable.StatusDisplayString` | src/modules/user/components/Dashboard/SubjectsTable/ObjectsTable.jsx:86-121 | a missing or empty status map shows "Нет данных", and the string is never empty |
| `ObjectsTable.MarkList` | src/modules/user/components/Dashboard/SubjectsTable/ObjectsTable.jsx:111-115 | one mark per status key |
| `ObjectsTable.GenerateStatusDisplayString` | src/modules/user/components/Dashboard/SubjectsTable/ObjectsTable.jsx:86-122 | the `+=` loop builds exactly `StatusDisplayString` |
| `ObjectsTable.ConcatEmpty` | src/modules/user/components/Dashboard/SubjectsTable/ObjectsTable.jsx:117-119 | the concatenation is empty exactly when every mark is |
| `ObjectsTable.ConcatStartsWithDash` | src/modules/user/components/Dashboard/SubjectsTable/ObjectsTable.jsx:111-115 | a non-empty string starts with '-' |
| `ObjectsTable.MarkFacts` | src/modules/user/components/Dashboard/SubjectsTable/ObjectsTable.jsx:111-115 | a mark is non-empty exactly for a completed key, and then wraps its abbreviation |
| `ObjectsTable.AbbreviationsDistinct` | src/modules/user/components/Dashboard/SubjectsTable/ObjectsTable.jsx:96-107 | the ten abbreviations are distinct |
| `ObjectsTable.StatusStringNoData` | src/modules/user/components/Dashboard/SubjectsTable/ObjectsTable.jsx:117-119 | for a non-empty map, "Нет данных" is shown exactly when no key is completed |
| `ObjectsTable.StatusStringDecodes` | src/modules/user/components/Dashboard/SubjectsTable/ObjectsTable.jsx:91-121 | an abbreviation is a '-'-separated token of the string exactly when its plan is completed |
| `ObjectsTable.TokenIffCompleted` | src/modules/user/components/Dashboard/SubjectsTable/ObjectsTable.jsx:91-121 | one abbreviation is a token of the status string exactly when its plan is completed |
| `ObjectsTable.HourCells` | src/modules/user/components/Dashboard/SubjectsTable/ObjectsTable.jsx:310-321 | 4 cells P1, P2, P3, F1 of row i, or 8 for "ЭПО" with each followed by its generation value; a missing value shows 0, and all are 0 past the end of the plan |
| `ObjectsTable.HourCellsPositional` | src/modules/user/components/Dashboard/SubjectsTable/ObjectsTable.jsx:310-321 | row i shows the i-th record received, whatever its hour |
| `Sheet.ParseIntOfDecimal` | src/modules/dispatcher/components/Dashboard/SubjectsTable/CombinedTable.jsx:799 | `parseInt` reads back a natural number's decimal text |
| `Sheet.ParseFloatOfDecimal` | src/modules/dispatcher/components/Dashboard/SubjectsTable/CombinedTable.jsx:800 | `parseFloat` reads back a natural number's decimal text |
| `Sheet.ParseFloatExample` | src/modules/dispatcher/components/Dashboard/SubjectsTable/CombinedTable.jsx:800 | `parseFloat("0.5")` is one half |
| `Sheet.ParseIntStopsAtPoint` | src/modules/dispatcher/components/Dashboard/SubjectsTable/CombinedTable.jsx:801 | `parseInt("12.7", 10)` is 12 |
| `Sheet.ParseIntSignAndTail` | src/modules/dispatcher/components/Dashboard/SubjectsTable/CombinedTable.jsx:799 | `parseInt("  -42px", 10)` is -42 |
| `Sheet.NoDigitNaN` | src/modules/dispatcher/components/Dashboard/SubjectsTable/CombinedTable.jsx:344 | text without a digit is NaN to both parsers, so `\|\| 0` stores 0 |
| `Sheet.TruncOfInt` | src/modules/dispatcher/components/Dashboard/SubjectsTable/CombinedTable.jsx:801 | `parseInt` keeps a whole number |
| `Text.Pad2` | src/modules/admin/components/Tariffs/Directions/Directions.jsx:103 | two digits below 100; the plain decimal text from 10 upwards |
| `Text.DatePart` | src/modules/user/components/Dashboard/SubjectsTable/SubjectTable.jsx:28 | text without 'T' is its own date part; a date-time is cut to the text before its first 'T' |
| `Seqs.Without` | src/modules/admin/components/Forms/FormConstructor/TableComponent.jsx:59 | `filter` removes every occurrence of the id and keeps the rest |
| `Seqs.WithoutAppend` | src/modules/admin/components/Forms/FormConstructor/TableComponent.jsx:59 | `filter` distributes over concatenation, so the kept ids stay in order |
| `Seqs.WithoutSnoc` | src/modules/admin/components/Forms/FormConstructor/TableComponent.jsx:59 | appending one id to the list appends it to the result unless it is the removed id |
| `Seqs.Reverse` | src/modules/admin/components/Tariffs/Directions/DirectionsTable.jsx:45 | `reverse` puts element i at position n - 1 - i |

## Findings

| source | as written | input that shows it | evidently intended | confidence | as-written member | corrected member |
|---|---|---|---|---|---|---|
| src/modules/dispatcher/components/Dashboard/SubjectsTable/CombinedTable.jsx:375-379 | the generation import button clicks the one file input, whose change handler is the main import's `handleFileChange` (line 987); `handleFileChangeGP1` is never called | the generation export sheet of any plan: its header "Hour", "Coefficient_Gen", "Volume_Gen" fails the main header check | the button runs `handleFileChangeGP1` and merges the generation columns | not executed | `CombinedTable.GP1ButtonAsWritten` | `CombinedTable.GP1ButtonIntended` |

## Left out

- **Network and effects.** These are not modelled:
  - requests to the server;
  - the `useEffect` fetch orchestration and `Promise.all`;
  - the loading and error flags;
  - the order in which responses race.

  Fetched data enters as parameters. `FetchTariffs` receives the response as a value.
- **Outside the model.** These are foreign library or browser calls:
  - XLSX reading and writing;
  - `FileReader`;
  - the file-type check;
  - `Blob` downloads.

  Only the array-of-arrays rows fed into or read out of them are modelled.
- **JSX markup.** Markup, CSS other than the status colours, glyphs and message shades, modals, and the banner timer are UI and are left out.
- **The cell highlight in the direction table.** Its editing cell is always reset to null, so it never applies.
- **Floating point.**
  - Numbers are exact reals.
  - `toFixed(2)` rounding is left out.
  - NaN in plan values is left out.
  - `parseFloat` does not model "Infinity".
- **Unmodelled helpers.** `getRowName` and `getSubjectName` are not part of this model. The row name and the subject name are parameters.
- **The main table.** Rows other than the cell values are not modelled. The array text `join(', ')` is kept as the array itself.
- **Arrays in the fallback row.** An array-valued raw value in the fallback row of the export is not modelled: a raw value is a number or null there.
- **Inherited object properties.** Properties such as `__proto__` or `toString` that a JavaScript object lookup could hit are not modelled.
- TableComponent.Aggregate: assumes every hour of an hourly item is a non-negative whole number, so its key is a canonical array index. A negative, fractional or zero-padded hour such as -1, 1.5 or "01" would be enumerated in insertion order among the series names rather than in ascending order with the hours. It also assumes no date is an array-index-like string. A date such as "20240101" would be listed before the other dates, not in first-visit order.
- TableComponent.EntryKeys: series names are assumed not to be canonical integer strings. JavaScript would merge such a name with an hour key.
- Directions.GenerateTableData: requires every tariff hour to be in 1..24, as do `StoreTariffs` and `FetchTariffs`. The JavaScript array would grow for a tariff outside that range within the month.
- Directions.DaysInMonth: requires a month index 0..11, since the month picker supplies no other.
- Directions.DateKey: renders the year unpadded, as the source does. Years below 1000 therefore do not give four-digit keys.
- TableComponent.SheetName: counts characters, not UTF-16 code units.
- Sheet.ParseInt: truncates every number cell. JavaScript prints a non-zero number below 10^-6 or from 10^21 up in exponent form, and `parseInt` then reads only its first digit (`parseInt(5e-7, 10)` is 5). Such numbers are not modelled.
- CombinedTable.MainRoundTrip: holds in the model for every whole volume. In the source a volume of 10^21 or more does not come back, because of the exponent form above. The same goes for `GP1RoundTrip`.
- **The generation import on the page.** `HandleFileChangeGP1` and `ParseGP1ExcelData` are modelled as written, although the page's button never reaches them (see Findings).
- **Ids.** Object and subject ids in sub-table keys are natural numbers.
- **Time intervals.** `SubjectTable.jsx` and `ObjectsTable.jsx` use the same interval labels, which are modelled once in `CombinedTable.TimeInterval`.
- **`calculateP2` on the page.** It reads a zero coefficient as 0, and this is modelled. Its `toFixed(2)` text form is not.
