# Equipment tracker core, modelled in Dafny

This project models the logic layer of a small equipment-loan tracker. The tracker is written in Python with a tkinter front end and a flat-file (CSV) store. The model covers:

- **Records** (`data_structures.dfy`, module `DataStructures`): employees, equipment, skills, audit-log entries and their event codes; the constructors with their defaults; and the skill-gap check `getMissingSkills`. The check is a loop, proved equal to a filter function, and that function's properties are proved as lemmas.
- **Flat-file rows** (`text.dfy`, module `Text`, and `csv_database.dfy`, module `CsvDatabase`): the Python text conversions the store uses (`",".join`, `split(",")`, `str`/`int` for the loss count, `str`/`bool` for the admin flag), the per-record row encoders and decoders, and the writers' and readers' loops over rows. The readers' exceptions appear as errors: a missing header row, a row with the wrong number of fields, and text that is not an integer. The round-trip lemmas state exactly what the store keeps and what it loses.
- **Report pipeline** (`pipeline.dfy`, module `Pipelines`): a `Pipeline` class whose filter list grows in place, a `Report` class whose header and data the filters reassign, and the two filters `double_data` and `update_header`, written as a datatype tag. `Execute` is proved equal to applying the filters left to right.
- **Login** (`manager.py` → `manager.dfy`, module `Management`): the `Manager` class with its fields, the first-match lookup `_set_current_user`, and `login`.

Identifiers are strings throughout. The Python type hints say `int`, and the readers always produce text. The callers pass text ids, except one unit-test fixture that builds a skill with the integer id `0`.

The record constructors in `dataStructures.py` do not match their callers. The Employee constructor lacks the password hash and the admin flag. The Equipment constructor names `borrower` and `skillRequirements`, while every caller uses `borrower_id` and `skillRequirementsIDs`. The model follows the callers: eight Employee fields and five Equipment fields. The admin flag defaults to false when omitted, because `tests.py` omits it and the constructor gives no default.

Event codes follow the code: LOST is 0, CHECKOUT 1 and CHECKIN 2.

`Pipeline.py`'s own script builds the demonstration pipeline and report but never calls `execute`, so the report it prints is the original. `DemoScript` models the script as written. `DemoExecution` and `DemoRun` state what executing the pipeline would give.

While the module-level `DEBUG` switch is on, `login` runs `_set_current_user` twice: once inside the diagnostic f-string and once for real. `Login` makes both calls. The lemma `LookupIdempotent` shows that the two calls leave the same state as one.

## Model

| member | source | states |
|---|---|---|
| `DataStructures.Equipment.GetMissingSkills` | dataStructures.py:36-41 | the loop returns exactly the required ids the employee does not hold, as the filter `MissingSkills` defines them; an id is in the result iff it is required and not held; neither record changes (they are values) |
| `DataStructures.MissingSkills` | dataStructures.py:36-41 | the skill-gap filter: its result is no longer than the requirement list, and holds an id iff that id is required and not held |
| `DataStructures.MissingSkillsAppend` | dataStructures.py:38-40 | the filter distributes over concatenation, so the missing ids keep requirement order |
| `DataStructures.MissingSkillsCount` | dataStructures.py:38-40 | a missing id appears as often as it is required (duplicates kept); a held id never appears |
| `DataStructures.MissingSkillsEmptyIff` | dataStructures.py:36-41 | nothing is missing iff the employee holds every required id |
| `DataStructures.MissingSkillsExample` | tests.py:19-20 | the holder of skill "0" misses nothing; an employee without it misses exactly ["0"] |
| `DataStructures.NewEmployee` | dataStructures.py:6-16 | given id lists are stored as given, omitted ones become empty lists; the loss count defaults to 0 and the admin flag to false; the other fields are stored as given |
| `DataStructures.NewEquipment` | dataStructures.py:22-31 | the borrower is the one given, absent by default; given requirement and queue lists are stored as given, omitted ones become empty lists |
| `DataStructures.ConstructorDefaults` | tests.py:15-17 | the unit test's fixtures, built with defaults (the first with skill ids ["0"]), have the given skill ids, empty borrowed lists, no losses, no admin flag and no borrower |
| `DataStructures.CodeValue` | dataStructures.py:50-53 | LOST, CHECKOUT and CHECKIN have the values 0, 1 and 2, all below 3 |
| `DataStructures.CodeOfValue` | dataStructures.py:50-53 | looking up an event by its value succeeds exactly for 0, 1 and 2 |
| `DataStructures.CodeValuesDistinct` | dataStructures.py:50-53 | distinct events have distinct values, and lookup by value gives the event back |
| `Text.Join` | csv_database.py:17-18 | `",".join`: a one-element list is written as its element |
| `Text.Split` | csv_database.py:30-31 | `split(",")`: at least one piece, and no piece contains a comma |
| `Text.SplitList` | csv_database.py:30-31 | the reader's list decoding gives the empty list exactly for the empty text |
| `Text.SplitJoin` | csv_database.py:30-31 | splitting undoes joining for a non-empty list of comma-free elements |
| `Text.ListFieldRoundTrip` | csv_database.py:30-31 | a list of non-empty, comma-free ids is read back unchanged, in order |
| `Text.ListFieldLosses` | csv_database.py:57-58 | the empty list is written as "" and read back empty; `[""]` reads back as `[]`; an id with a comma is split in two |
| `Text.ParseInt` | csv_database.py:32 | `int(...)` succeeds iff the text is one or more ASCII digits, optionally after one `-` or `+` sign; other text is the ValueError path |
| `Text.IntTextRoundTrip` | csv_database.py:19 | every integer, negative ones included, reads back from its decimal text as itself |
| `Text.ParseIntRejects` | csv_database.py:32 | "", "-" and "abc" are rejected |
| `Text.IntToText` | csv_database.py:19 | `str(n)`: non-empty text that starts with a minus sign iff n is negative, and is all digits iff n is non-negative |
| `Text.BoolToText` | csv_database.py:20 | `str(b)`: non-empty text, "True" exactly for true |
| `Text.ParseBool` | csv_database.py:32 | `bool(s)`: true iff the text is non-empty, so "False" reads as true |
| `Text.BoolTextLossy` | csv_database.py:20 | `bool(str(b))` is true for both flags, so the admin flag survives the store only when it was true |
| `CsvDatabase.EncodeTable` | csv_database.py:10-21 | a writer emits the header row first, then one row per record, in order |
| `CsvDatabase.DecodeRows` | csv_database.py:28-32 | one record per data row, in row order, each the decoding of its row; on failure, the first failing row and its error |
| `CsvDatabase.DecodeTable` | csv_database.py:27-32 | an empty file is an error; otherwise the first row is skipped whatever it holds, reading succeeds iff every later row decodes, and then record k is the decoding of row k+1 |
| `CsvDatabase.WriteTable` | csv_database.py:11-21 | the writing loop produces exactly `EncodeTable` |
| `CsvDatabase.ReadTable` | csv_database.py:27-33 | the reading loop, which stops at the first bad row, produces exactly `DecodeTable` |
| `CsvDatabase.TableRoundTrip` | csv_database.py:27-33 | reading what a writer wrote gives back, record by record and in order, what each row decodes to |
| `CsvDatabase.EncodeEmployee` | csv_database.py:12-21 | an employee row has the header's eight columns |
| `CsvDatabase.DecodeEmployee` | csv_database.py:29-32 | a row decodes iff it has eight fields and its loss-count text is an integer; otherwise the error is a wrong field count or, with eight fields, an invalid integer; a decoded employee is an admin iff its flag text is non-empty, and its loss count is the parsed integer |
| `CsvDatabase.EmployeeRowRoundTrip` | csv_database.py:12-32 | an employee row reads back as the same employee, with the same id lists in order and the same loss count, except that the admin flag is always true |
| `CsvDatabase.WriteEmployees` | csv_database.py:7-21 | the employee file is the employee header followed by one row per employee |
| `CsvDatabase.ReadEmployees` | csv_database.py:23-33 | reading employees is `DecodeTable` with the employee row decoder |
| `CsvDatabase.EmployeesRoundTrip` | csv_database.py:7-33 | writing and reading employees keeps all of them, in order, but makes every one an administrator |
| `CsvDatabase.DecodeBorrower` | csv_database.py:62 | a borrower cell of exactly "None" is absent; any other text is that id unchanged |
| `CsvDatabase.BorrowerCell` | csv_database.py:44 | the borrower cell holds the borrower id when there is one, and otherwise the text written for None |
| `CsvDatabase.BorrowerRoundTrip` | csv_database.py:44-62 | a borrower survives the store iff it is an id other than "None", or it is absent and absence is written as "None" |
| `CsvDatabase.EncodeEquipment` | csv_database.py:41-47 | an equipment row has the header's five columns |
| `CsvDatabase.DecodeEquipment` | csv_database.py:56-65 | a row decodes iff it has five fields |
| `CsvDatabase.EquipmentRowRoundTrip` | csv_database.py:41-65 | for whatever text stands for an absent borrower, an equipment row with non-empty, comma-free requirement and queue ids reads back with the same id, name, requirements and queue, in order, and the borrower its cell decodes to; with absence written as "None" and no borrower id "None", the item comes back unchanged |
| `CsvDatabase.WriteEquipment` | csv_database.py:36-47 | the equipment file is the equipment header followed by one row per item |
| `CsvDatabase.ReadEquipment` | csv_database.py:50-66 | reading equipment is `DecodeTable` with the equipment row decoder |
| `CsvDatabase.EquipmentRoundTrip` | csv_database.py:36-66 | for whatever text stands for an absent borrower, writing and reading equipment with non-empty, comma-free requirement and queue ids gives every item back, in order, with the borrower its cell decodes to; with absence written as "None" and no borrower id "None", exactly the items written |
| `CsvDatabase.EquipmentEmptyNoneCell` | csv_database.py:44-62 | if an absent borrower is written as the empty cell, the item reads back with borrower id "": the reader's "None" test does not recognise it |
| `CsvDatabase.EncodeSkill` | csv_database.py:74-77 | a skill row has the header's two columns |
| `CsvDatabase.DecodeSkill` | csv_database.py:85-90 | a row decodes iff it has two fields |
| `CsvDatabase.WriteSkills` | csv_database.py:69-77 | the skill file is the skill header followed by one row per skill |
| `CsvDatabase.ReadSkills` | csv_database.py:80-91 | reading skills is `DecodeTable` with the skill row decoder |
| `CsvDatabase.SkillsRoundTrip` | csv_database.py:69-91 | skills come back unchanged and in order, whatever their text |
| `Pipelines.Doubled` | Pipeline.py:14 | doubling keeps the length of the data |
| `Pipelines.ApplyFilter` | Pipeline.py:13-17 | `double_data` keeps the header and doubles every element, keeping the length; `update_header` sets the fixed header and keeps the data |
| `Pipelines.ApplyAll` | Pipeline.py:10-11 | the reference for `execute`: no filters change nothing; the data length is always kept; the header ends as the fixed text iff `update_header` is in the list, and is unchanged otherwise |
| `Pipelines.ApplyAllAppend` | Pipeline.py:10-11 | running two filter lists one after the other is running their concatenation |
| `Pipelines.ApplyAllFirst` | Pipeline.py:10-11 | the first filter runs first, on the unchanged report, and then the rest in order |
| `Pipelines.ApplyAllEmpty` | Pipeline.py:10-11 | an empty filter list leaves the report unchanged |
| `Pipelines.DoubleDataEffect` | Pipeline.py:13-14 | `double_data` keeps the header and the length and doubles every element |
| `Pipelines.UpdateHeaderEffect` | Pipeline.py:16-17 | `update_header` sets the fixed header, keeps the data, and applying it twice equals applying it once |
| `Pipelines.DemoExecution` | Pipeline.py:19-24 | the demonstration pipeline turns the data [1,2,3] into [2,4,6] and sets the updated header |
| `Pipelines.Report.constructor` | Pipeline.py:23-24 | a report holds the header and data it is built with |
| `Pipelines.Report.DoubleData` | Pipeline.py:13-14 | the report's data is reassigned to the doubled list; the header is unchanged |
| `Pipelines.Report.UpdateHeader` | Pipeline.py:16-17 | the report's header is reassigned to the fixed text; the data is unchanged |
| `Pipelines.RunFilter` | Pipeline.py:11 | calling a filter changes the report as that filter's definition says |
| `Pipelines.Pipeline.constructor` | Pipeline.py:2-3 | a new pipeline has no filters |
| `Pipelines.Pipeline.Add` | Pipeline.py:5-6 | the filter list becomes the old list followed by the given filters, in their order |
| `Pipelines.Pipeline.Execute` | Pipeline.py:8-11 | the report ends as the left-to-right application of every filter, each once, to its initial contents; the filter list is unchanged |
| `Pipelines.DemoScript` | Pipeline.py:19-24 | the script leaves a pipeline holding [double_data, update_header] and the original report, which it never executes |
| `Pipelines.DemoRun` | Pipeline.py:19-24 | executing the demonstration pipeline yields the updated header and data [2,4,6] |
| `Management.FindUser` | manager.py:38-42 | the lookup finds the first employee in list order with that id and hash; it finds nothing iff no employee matches |
| `Management.UserAfterLookup` | manager.py:36-42 | the reference for `_set_current_user`: with no matching employee the current user is unchanged; with one, it becomes a matching employee of the list |
| `Management.LookupIdempotent` | manager.py:49-52 | a second lookup with the same credentials leaves the logged-in employee as the first one did |
| `Management.LookupFindsMatch` | manager.py:38-41 | when some employee matches, the logged-in employee is an employee of the list that matches |
| `Management.Manager.constructor` | manager.py:8-30 | omitted collections are empty; the limits default to 5 and 3; nobody is logged in |
| `Management.Manager.SetCurrentUser` | manager.py:35-42 | the result is true iff some employee matches; then the first match becomes the current user, otherwise (including an empty roster) the current user is unchanged; only the current user may change |
| `Management.Manager.Login` | manager.py:44-57 | always false; with an empty id or password the current user is untouched; otherwise the raw password is looked up as the hash, with the lookup's effect |

## Left out

- The tkinter interface (`GUI.py`, `customWidgets.py`): the manager creating its window and running the event loop, and `login` opening the main menu after a match.
- Opening, reading and writing files, and the `csv` module's quoting: a file is modelled as its list of rows, each a list of cell texts.
- The text the `csv` module writes for a Python `None` borrower: this is library behaviour, so it is the `noneText` parameter of `EncodeEquipment`.
- The text the `csv` writer uses for an absent borrower: Python documents an empty cell. The round-trip lemmas cover every such text. With the empty cell, an item without a borrower reads back with borrower id "" (`EquipmentEmptyNoneCell`); borrowed items come back unchanged unless their borrower id is "None".
- `Text.ParseInt`: does not model the surrounding whitespace, `_` digit separators or non-ASCII digits that Python's `int` also accepts. The writer never emits any of these.
- Password hashing: hashes are opaque strings, and `login` compares the raw password against them as the code does.
- Diagnostic printing in `Pipeline.py` and `manager.py`. The extra lookup that `login`'s diagnostic line performs is kept.
- `debug_code.py` and `main.py`: random sample data and start-up.
- Ids that are not text, such as the integer skill id `0` in one unit-test fixture: ids are strings here, so `SkillsRoundTrip`'s "whatever their text" covers text ids only. A stored integer id would read back as its decimal text.
- Log dates: they are opaque integer timestamps, since nothing computes with them.
- Aliasing of the list objects the Python records hold: records and their lists are values here, and nothing in these files mutates them after construction.
- The checkout limit and loss limit are stored as given (defaults 5 and 3), and nothing reads them. Checkout, check-in, loss reporting and report statistics are not implemented in these files.
