# Five console demos, modelled in Dafny

This project models the in-memory cores of five small C# console programs and
proves what each one promises. Each program has its own module:

- `InventorySystem` (`inventory_system.dfy`) models a keyed inventory repository and a warehouse manager.
  - The repository maps item ids to items.
  - It reports three failures: duplicate id, missing id and negative quantity.
  - The manager owns one repository of electronic items and one of grocery items.
  - On top of them it builds seeding, stock increase and removal, and it catches and reports every failure.
- `HealthcareSystem` (`healthcare_system.dfy`) models a generic list repository and the prescription map.
  - The repository supports append, copy, first-match lookup and first-match removal.
  - The application groups prescriptions by patient id into a map.
- `GradingSystem` (`grading_system.dfy`) models letter grading and the student-file reader.
  - Letter grading is a chain of score thresholds.
  - The reader turns the lines of a student file into students and stops at the first bad line with a typed error.
- `FinanceManagementSystem` (`finance_management_system.dfy`) models account balance rules.
  - A plain account always debits.
  - A savings account refuses a debit that exceeds its balance.
  - The app applies three transactions and logs them.
- `InventoryRecords` (`inventory_records.dfy`) models an append-only generic logger.
  - It saves its whole log to a file.
  - Loading replaces the log with what the file holds.

`wrappers.dfy` holds the `Option` and `Result` datatypes that the modules share.

Each object the source updates in place is a class holding the source's fields. `InventoryRepository` also has an `order` field, the order in which the dictionary enumerates its keys, which `GetAllItems` follows. The `ensures` of each state-changing method ties the new state to a pure function of the old state:
- `InventoryRepository` and `WareHouseManager` use `AddTo`, `RemoveFrom`, `UpdateIn`, `IncreaseIn` and `SeedInto`.
- `HealthSystemApp.BuildPrescriptionMap` uses `GroupByPatient`.
- `SavingsAccount.ApplyTransaction` uses `SavingsDebit`.
- `InventoryLogger.LoadFromFile` uses `LogAfterLoad`.

The file reader `ReadStudentsFromFile` changes no state. Its result is proved against the per-line rule `ParseLine`. Lemmas state what the source promises about all these functions.

## Notes on the program's behaviour

Three behaviours of the warehouse program are easy to misread. The model keeps each as the code has it:
- `SeedData` runs its four adds inside one `try`, so the first failing add skips all the adds after it. It does not continue with the remaining items. See `SeedInto` and `SeedTwice`.
- `AddItem` makes no quantity check, so an item with a negative quantity can enter a repository. The invariant "every stored quantity is non-negative" holds only for the other operations. See `AddAdmitsNegative` and `MutationsKeepNonNegative`.
- The warehouse demo (`RunDemo`) never increases stock. The grocery quantity that the refused update of `-10` leaves is 40, the seeded value. See `DemoScenario`.

## Model

| member | source | states |
|---|---|---|
| InventorySystem.AddTo | InventorySystem/Program.cs:74-80 | Succeeds iff the id is absent. A duplicate fails with DuplicateItem and leaves the map as it was. Otherwise the item is stored under its id, the key set grows by that id only, and no other entry changes. |
| InventorySystem.RemoveFrom | InventorySystem/Program.cs:90-94 | Succeeds iff the id is present, and deletes exactly that key. An absent id fails with ItemNotFound and the map is unchanged. |
| InventorySystem.UpdateIn | InventorySystem/Program.cs:101-110 | A negative quantity fails with InvalidQuantity before existence is checked. A missing id then fails with ItemNotFound. Otherwise only that item's quantity changes; keys and every other item are kept. |
| InventorySystem.IncreaseIn | InventorySystem/Program.cs:142-154 | Succeeds iff the id is present and the old quantity plus the increase is non-negative, setting that sum. A missing id fails from the lookup; a negative sum fails from the update. On failure nothing changes. |
| InventorySystem.SeedInto | InventorySystem/Program.cs:118-132 | All four adds succeed iff ids 1 and 2 are free in both stores. The first duplicate id stops the seeding there, and the adds before it stay done. A duplicate 1 in the electronics store skips every add. A duplicate 2 there leaves only the Laptop added. A duplicate 1 in the grocery store leaves both electronic items added. A duplicate 2 there leaves those and the Maize added. Existing entries are never changed. |
| InventorySystem.SeedFresh | InventorySystem/Program.cs:118-127 | Seeding empty stores holds Laptop and Smartphone under ids 1 and 2, and Maize and Malt under the same ids in the other store. |
| InventorySystem.SeedTwice | InventorySystem/Program.cs:118-131 | A second seeding fails on its first add with DuplicateItem(1) and leaves both stores as the first seeding left them. |
| InventorySystem.AddThenLookup | InventorySystem/Program.cs:74-88 | After adding an item under a fresh id, looking that id up gives the item unchanged. |
| InventorySystem.RemoveTwice | InventorySystem/Program.cs:90-94 | A second removal of the same id fails with ItemNotFound and changes nothing. |
| InventorySystem.NegativeBeforeMissing | InventorySystem/Program.cs:101-107 | An update to -1 of a missing id reports InvalidQuantity, not ItemNotFound. |
| InventorySystem.MutationsKeepNonNegative | InventorySystem/Program.cs:101-110 | Update, removal and stock increase keep every stored quantity non-negative. |
| InventorySystem.AddAdmitsNegative | InventorySystem/Program.cs:74-80 | Adding an item with quantity -5 under a fresh id succeeds, and the store then holds a negative quantity. |
| InventorySystem.DemoScenario | InventorySystem/Program.cs:169-199 | After seeding, the duplicate tablet fails with DuplicateItem(1), removing grocery 99 fails with ItemNotFound, and setting grocery 1 to -10 fails with InvalidQuantity, leaving 40. |
| InventorySystem.Without | InventorySystem/Program.cs:90-94 | Dropping a key from the enumeration order keeps every other key, keeps keys distinct, shortens the order by one when the key was there, and changes nothing when it was not. |
| InventorySystem.InventoryRepository.constructor | InventorySystem/Program.cs:72 | A new repository is empty and valid. |
| InventorySystem.InventoryRepository.AddItem | InventorySystem/Program.cs:74-80 | The new map and the outcome are those of AddTo on the old map, and the repository stays valid. |
| InventorySystem.InventoryRepository.GetItemById | InventorySystem/Program.cs:82-88 | Read-only. Returns the stored item, whose id is the key, iff the id is present. Otherwise fails with ItemNotFound from the lookup. |
| InventorySystem.InventoryRepository.RemoveItem | InventorySystem/Program.cs:90-94 | The new map and the outcome are those of RemoveFrom on the old map, and the repository stays valid. |
| InventorySystem.InventoryRepository.GetAllItems | InventorySystem/Program.cs:96-99 | Read-only. Returns a new list holding every stored item exactly once: the length equals the number of keys, each element is the item stored under its id, no id repeats, and every key appears. |
| InventorySystem.InventoryRepository.UpdateQuantity | InventorySystem/Program.cs:101-110 | The new map and the outcome are those of UpdateIn on the old map, and the repository stays valid. |
| InventorySystem.WareHouseManager.constructor | InventorySystem/Program.cs:115-116 | Two fresh, distinct, empty repositories. |
| InventorySystem.WareHouseManager.SeedData | InventorySystem/Program.cs:118-132 | Both stores and the reported outcome are those of SeedInto on the old stores. |
| InventorySystem.WareHouseManager.IncreaseStock | InventorySystem/Program.cs:142-154 | The store and the reported outcome are those of IncreaseIn on the old store. Nothing is rethrown. |
| InventorySystem.WareHouseManager.RemoveItemById | InventorySystem/Program.cs:156-167 | The store and the reported outcome are those of RemoveFrom on the old store. Nothing is rethrown. |
| HealthcareSystem.FirstIndex | HealthcareSystem/Program.cs:15 | Returns the position of the first element satisfying the predicate, or None iff no element satisfies it. |
| HealthcareSystem.RemoveFirst | HealthcareSystem/Program.cs:22 | List.Remove drops one element when the value is present and returns the list unchanged when it is absent. |
| HealthcareSystem.RemoveFirstDropsOne | HealthcareSystem/Program.cs:22 | List.Remove takes out exactly one occurrence of the value, when there is one, and keeps every other element. |
| HealthcareSystem.RemoveFirstAtFirstMatch | HealthcareSystem/Program.cs:17-26 | List.Remove on the element found at the first match removes exactly that position. |
| HealthcareSystem.Repository.constructor | HealthcareSystem/Program.cs:9 | A new repository is empty. |
| HealthcareSystem.Repository.Add | HealthcareSystem/Program.cs:11 | Appends at the end and keeps every earlier element. Duplicates are allowed. |
| HealthcareSystem.Repository.GetAll | HealthcareSystem/Program.cs:13 | Returns a value equal to the current list, which later changes cannot reach. |
| HealthcareSystem.Repository.GetById | HealthcareSystem/Program.cs:15 | Returns None iff nothing matches. Otherwise returns the first matching element in insertion order. |
| HealthcareSystem.Repository.Remove | HealthcareSystem/Program.cs:17-26 | Returns true iff some element matches, and then deletes only the first match. Otherwise returns false and leaves the list unchanged. |
| HealthcareSystem.GroupByPatient | HealthcareSystem/Program.cs:90-102 | The keys of the grouped map are exactly the patient ids present. |
| HealthcareSystem.PrescriptionsOf | HealthcareSystem/Program.cs:94-101 | One patient's list as the loop fills it: never longer than the repository. The lemmas below prove its soundness, completeness and order. |
| HealthcareSystem.PrescriptionsOfSound | HealthcareSystem/Program.cs:94-101 | A patient's group holds only that patient's prescriptions, each taken from the repository. |
| HealthcareSystem.PrescriptionsOfComplete | HealthcareSystem/Program.cs:94-101 | Every prescription appears in its patient's group exactly as often as in the repository. |
| HealthcareSystem.PrescriptionsOfInOrder | HealthcareSystem/Program.cs:94-101 | Every group is a subsequence of the repository, so repository order is kept. |
| HealthcareSystem.GroupSizesSum | HealthcareSystem/Program.cs:94-101 | The group sizes, taken once per patient id, add up to the number of prescriptions. |
| HealthcareSystem.FirstSeenIds | HealthcareSystem/Program.cs:94-101 | The distinct patient ids: no id occurs twice, and they are exactly the ids present. |
| HealthcareSystem.GroupByPatientAppend | HealthcareSystem/Program.cs:96-100 | One more prescription appends it to its patient's group, and creates the group when the id is new. |
| HealthcareSystem.GroupByPatientStep | HealthcareSystem/Program.cs:96-100 | The same step on a prefix: grouping the first n + 1 prescriptions adds the next prescription to the grouping of the first n. |
| HealthcareSystem.AbsentPatientHasNoPrescriptions | HealthcareSystem/Program.cs:113-118 | A patient id that does not occur has an empty group. |
| HealthcareSystem.SeedGroups | HealthcareSystem/Program.cs:83-87 | Among the seeded prescriptions, patient 1101 has 1, 2 and 5 in that order, and patient 1102 has 3 only. |
| HealthcareSystem.DemoGrouping | HealthcareSystem/Program.cs:143-152 | The seeded prescriptions group under exactly 1101, 1102 and 1103. Patient 1102 has prescription 3 only; patient 1101 has 1, 2 and 5 in that order. |
| HealthcareSystem.HealthSystemApp.constructor | HealthcareSystem/Program.cs:73-75 | Two fresh, empty repositories and an empty map. |
| HealthcareSystem.HealthSystemApp.SeedData | HealthcareSystem/Program.cs:76-88 | Appends the three patients and the five prescriptions, in order. |
| HealthcareSystem.HealthSystemApp.BuildPrescriptionMap | HealthcareSystem/Program.cs:90-102 | The map afterwards is the grouping of the repository, whatever it held before. Building twice therefore gives the same map as building once. |
| HealthcareSystem.HealthSystemApp.GetPrescriptionsByPatientId | HealthcareSystem/Program.cs:113-118 | Returns the grouped list for a known id and an empty list otherwise. After a build, this is exactly that patient's prescriptions in repository order. |
| GradingSystem.GetGrade | GradingSystem/Program.cs:30-37 | Returns one of A, B, C, D and F. It returns "A" iff the score is in 80..100, and "F" iff the score is below 50. |
| GradingSystem.GradeUpToHundred | GradingSystem/Program.cs:30-37 | Up to 100, the grade agrees with a grading by bands of ten. |
| GradingSystem.GradeAboveHundred | GradingSystem/Program.cs:32-33 | Every score above 100 fails the "A" comparison and is graded "B", where grading by tens would give "A". |
| GradingSystem.GradeBands | GradingSystem/Program.cs:30-37 | Each grade holds iff the score is in its band: 80..100 A, 70..79 or above 100 B, 60..69 C, 50..59 D, below 50 F. |
| GradingSystem.IsWhiteSpace | GradingSystem/Program.cs:62-64 | The white-space characters that `Trim` removes and `string.IsNullOrWhiteSpace` accepts: space, tab, line feed, carriage return, vertical tab, form feed and no-break space. |
| GradingSystem.IsBlank | GradingSystem/Program.cs:64 | `string.IsNullOrWhiteSpace` on a non-null string: every character is white space, so the empty string is blank. |
| GradingSystem.TrimStart | GradingSystem/Program.cs:62-63 | Returns a suffix of the input. What it drops is all white space, and it does not start with white space. |
| GradingSystem.TrimEnd | GradingSystem/Program.cs:62-63 | Returns a prefix of the input. What it drops is all white space, and it does not end with white space. |
| GradingSystem.Trim | GradingSystem/Program.cs:62-63 | The result is no longer than its input and neither starts nor ends with white space. It is empty iff the input is blank, which is the case `string.IsNullOrWhiteSpace` reports. |
| GradingSystem.Split | GradingSystem/Program.cs:55 | Returns at least one part, and no part contains a comma. |
| GradingSystem.SplitJoin | GradingSystem/Program.cs:55 | Splitting comma-joined, comma-free parts gives the parts back. |
| GradingSystem.JoinSplit | GradingSystem/Program.cs:55 | Joining the parts of any split with commas gives the line back. |
| GradingSystem.ParseInt | GradingSystem/Program.cs:62-67 | A text that parses is non-empty and contains no white space and no comma. IntToStringParses shows that every written integer parses back. |
| GradingSystem.IntToString | GradingSystem/Program.cs:119 | How an integer answer appears in the file: non-empty, comma-free, and without white space at either end. |
| GradingSystem.IntToStringParses | GradingSystem/Program.cs:62-67 | The integer parser reads back any integer written in decimal. |
| GradingSystem.ParseLine | GradingSystem/Program.cs:55-75 | A failure carries the 1-based line number of the line it rejects. |
| GradingSystem.ParseLineSuccess | GradingSystem/Program.cs:55-70 | A success comes only from a line with three parts. It gives the student whose id and score are the parsed trimmed first and third parts and whose name is the non-blank trimmed second part. |
| GradingSystem.FieldCountFirst | GradingSystem/Program.cs:55-58 | A line that does not split into exactly three parts is a missing-field error carrying the line, whatever else is wrong with it. |
| GradingSystem.IdCheckedBeforeNameAndScore | GradingSystem/Program.cs:60-75 | With three parts and an id that does not parse, the error is "Invalid ID format" with the raw id part, whatever the name and score are. |
| GradingSystem.NameCheckedBeforeScore | GradingSystem/Program.cs:63-68 | With a good id and a blank name, the error is a missing name, whatever the score is. |
| GradingSystem.ScoreCheckedLast | GradingSystem/Program.cs:67-68 | With a good id and a non-blank name, a score part that does not parse gives "Invalid score format" with the raw score part. |
| GradingSystem.FormatLine | GradingSystem/Program.cs:119 | A line written from comma-free answers splits into exactly the id, the name after one space, and the score after one space. |
| GradingSystem.LineRoundTrip | GradingSystem/Program.cs:55-70 | A line written as at line 119, from an integer id, a non-blank comma-free name and an integer score, reads back as that id, the trimmed name and that score. |
| GradingSystem.ParsedPrefixGrows | GradingSystem/Program.cs:70 | Accepting the next line extends the students read so far by that line's student, keeping one student per line in line order. |
| GradingSystem.ReadStudentsFromFile | GradingSystem/Program.cs:43-79 | Succeeds iff every line passes the per-line rule, with one student per line in line order. Otherwise the error is that of the first bad line and no students are returned. |
| FinanceManagementSystem.SavingsDebit | FinanceManagementSystem/Program.cs:59-70 | An amount above the balance leaves it unchanged. Otherwise the balance falls by exactly the amount, to 0 when they are equal. A non-negative balance stays non-negative. |
| FinanceManagementSystem.AccountBalanceAfter | FinanceManagementSystem/Program.cs:48-52 | The plain balance after applying transactions in order. With debits only, it never rises above the start. |
| FinanceManagementSystem.SavingsBalanceAfter | FinanceManagementSystem/Program.cs:59-70 | The savings balance after applying transactions in order. With debits only, it ends between the plain account's balance and the start, because a refused debit never lowers it. |
| FinanceManagementSystem.AccountDebitsTotal | FinanceManagementSystem/Program.cs:48-52 | A plain account falls by the total of the amounts applied, with no floor, so it can go negative. |
| FinanceManagementSystem.SavingsNeverNegative | FinanceManagementSystem/Program.cs:59-70 | From a non-negative start, no sequence of transactions makes a savings balance negative. |
| FinanceManagementSystem.SavingsAgreesWhenFunded | FinanceManagementSystem/Program.cs:59-70 | With non-negative amounts whose total fits the balance, the savings account ends exactly where a plain account would, at the balance less the total. |
| FinanceManagementSystem.Account.constructor | FinanceManagementSystem/Program.cs:42-46 | Sets the account number, which is a constant afterwards, and the initial balance. |
| FinanceManagementSystem.Account.ApplyTransaction | FinanceManagementSystem/Program.cs:48-52 | Subtracts the amount unconditionally and changes only the balance. |
| FinanceManagementSystem.SavingsAccount.constructor | FinanceManagementSystem/Program.cs:57 | Sets the account number, which is a constant afterwards, and the initial balance. |
| FinanceManagementSystem.SavingsAccount.ApplyTransaction | FinanceManagementSystem/Program.cs:59-70 | The balance becomes SavingsDebit of the old balance, so an insufficient-funds transaction changes nothing, and a non-negative balance stays non-negative. |
| FinanceManagementSystem.FinanceApp.constructor | FinanceManagementSystem/Program.cs:75 | The log starts empty. |
| FinanceManagementSystem.FinanceApp.Run | FinanceManagementSystem/Program.cs:77-99 | The account CAL10001 goes from 5000 to 4150 because every debit fits. The log gains t1, t2 and t3, in that order. |
| InventoryRecords.LogAfterLoad | InventoryRecords/Program.cs:48-70 | A missing or unreadable file keeps the log. A file that reads replaces the log with its list, or with an empty list for null. |
| InventoryRecords.FileAfterSave | InventoryRecords/Program.cs:31-46 | A completed write leaves a file that loads back as the log. A failure before the file is opened leaves the file as it was. A failure after opening has truncated it, leaving a file that does not deserialise. |
| InventoryRecords.LoadReplaces | InventoryRecords/Program.cs:61-62 | A successful load replaces the log rather than appending to it, and a null list gives an empty log. |
| InventoryRecords.FailedLoadKeeps | InventoryRecords/Program.cs:52-69 | A missing file, or a read or deserialisation that throws, keeps the log as it was. |
| InventoryRecords.SaveThenLoad | InventoryRecords/Program.cs:31-70 | Loading what a completed save wrote gives back the saved log, whatever log the loader held. |
| InventoryRecords.FailedSaveThenLoad | InventoryRecords/Program.cs:33-35 | A save that fails before the StreamWriter opens the file leaves the file, and so what a later load reads, as it was. |
| InventoryRecords.TruncatedSaveThenLoad | InventoryRecords/Program.cs:36-44 | A save that fails after the StreamWriter has opened, and so truncated, the file makes a later load keep the loader's own log. That differs from what the file held before whenever it held a different list. |
| InventoryRecords.InventoryLogger.constructor | InventoryRecords/Program.cs:18-21 | A new logger has an empty log and the given path. |
| InventoryRecords.InventoryLogger.Add | InventoryRecords/Program.cs:23-27 | Appends at the end and keeps earlier entries, with no duplicate-id check. |
| InventoryRecords.InventoryLogger.GetAll | InventoryRecords/Program.cs:29 | Returns a value equal to the log, which later adds cannot reach. |
| InventoryRecords.InventoryLogger.SaveToFile | InventoryRecords/Program.cs:31-46 | Never changes the log. Returns FileAfterSave for how the attempt ends: a completed write holds the log; a failure before opening leaves the file as it was; a failure after opening leaves it unreadable. |
| InventoryRecords.InventoryLogger.LoadFromFile | InventoryRecords/Program.cs:48-70 | The log becomes what the file holds, or an empty list for null. It is unchanged when the file is missing or unreadable. |
| InventoryRecords.SaveAndReload | InventoryRecords/Program.cs:105-118 | The demo: a new logger that loads the saved file holds the five seeded items, in order. |

## Left out

- Console output, `ToString` overrides and every interpolated message are presentation only.
  - Errors carry their kind and data (id, line number, raw text) instead of a message.
  - The printing loops are not modelled: `PrintAllItems`, `PrintAllPatients`, `PrintPrescriptionsForPatient`, `InventoryApp.PrintAllItems` and the transaction-log print in `FinanceApp.Run`.
- `DateTime.Now` is clock input, so each date is an opaque `int` parameter.
  - `SaveAndReload` uses one date for all five items.
  - `HealthSystemApp.SeedData` uses one date for all five prescriptions.
  - Each source call reads the clock anew.
- File I/O is not modelled.
  - The student file is given as its sequence of lines.
  - The logger's file is an abstract value: absent, unreadable, or holding a possibly-null list.
  - How a save ends (completed, failed before opening the file, failed after opening it) is a parameter.
  - JSON serialisation, `StreamReader`, `StreamWriter`, `File.Exists`, `WriteReportToFile` and the interactive part of the grading `Main` are not modelled.
- The `ITransactionProcessor` implementations only print, so they are not modelled.
- `InventoryApp` is a thin wrapper; `SaveAndReload` follows the `Main` that drives it.
- `SavingsAccount` derives from `Account` in the source. Here the two are separate classes, each with its own `ApplyTransaction`, because traits and subclassing are not used.
  - `FinanceApp.Run`, the only code that uses accounts, never calls the base version on a savings account.
- `decimal` amounts are whole minor units (5000m is 500000). The demo's amounts are exact in both.
- GradingSystem.ParseInt accepts an optional sign and one or more decimal digits.
  - .NET culture rules are not modelled.
  - The `OverflowException` of an id outside 32-bit range is not modelled; it is uncaught at GradingSystem/Program.cs:72.
  - The scores the model accepts are unbounded integers.
- GradingSystem.IsWhiteSpace covers space, tab, line feed, vertical tab, form feed, carriage return and no-break space, not the whole Unicode white-space category.
- InventorySystem.IncreaseIn adds with unbounded integers. It does not model the unchecked 32-bit wrap-around of `item.Quantity + quantity` at InventorySystem/Program.cs:147.
- Items are values, not shared objects.
  - In the source, `GetAllItems` and `GetItemById` hand out the same item objects the dictionary holds, so a later `UpdateQuantity` is visible through an earlier snapshot. Here a snapshot is unaffected.
  - `GetPrescriptionsByPatientId` returns the map's own list object. Here it returns a value.
  - `List.Remove` compares class instances by reference; here equality is structural. `RemoveFirstAtFirstMatch` shows this removes the first match either way.
- InventorySystem uses one `Item` datatype with an electronic and a grocery variant for the generic `T : IInventoryItem`.
  - Each manager repository is meant to hold one variant, but the type does not enforce it.
- InventorySystem.InventoryRepository.GetAllItems enumerates in insertion order with removed keys dropped.
  - This is the enumeration order of a .NET `Dictionary` that has only ever been appended to. After a removal, .NET may reuse the freed slot for a later key.
  - The contract does not depend on the order.
- HealthcareSystem.Repository.GetById returns an `Option` for `T?`, and `Remove` uses the same first-match search.
  - In the source, for a value type `T`, `FirstOrDefault` yields `default(T)`, which is never null, so `Remove` would report success on no match. `HealthSystemApp`, the only code that instantiates `Repository<T>`, uses the reference types `Patient` and `Prescription`, whose default is null.
- HealthcareSystem.Repository.Remove and `GetById` do not model null elements. In the source, a stored null that is the first match makes `FirstOrDefault` return null (HealthcareSystem/Program.cs:19-20), so `GetById` answers as if nothing matched, and `Remove` returns false and leaves the list unchanged. The model's elements are never null, so a first match is always found and removed.
- InventoryRecords.InventoryLogger.SaveToFile treats every failure after the StreamWriter opens the file as leaving an unreadable file (empty, or a prefix of the JSON text). A failure in the final flush after all the text had already reached the disk, which would leave a readable file, is not modelled. Whether a save fails, and where, is an input.
- InventoryRecords.FileAfterSave maps FailedAfterOpen to an unreadable file for the same reason, so it too does not model a flush failure that leaves the whole JSON text on disk.
