# Farm dashboard core, modelled in Dafny

This project models the client-side logic of a farm-management dashboard
written in JavaScript/React. That logic is the handling of task, expense,
crop, farm, field and inventory collections: filters, sorts and aggregates
over those lists, the handlers that add to, edit and delete from them, form
validation, a rule-based crop-advice function and the data-export
serialisers. It also proves properties of the model.

The remote store, the clock, "today", `window.confirm` and the UI events are
parameters. React `setState` becomes a field assignment in a `class`. A pure
expression becomes a `function`, with its properties as `ensures` clauses or
lemmas.

Modules, one per source file (plus shared libraries):

- `CalendarView`: the calendar's task list. It covers recurring-task expansion (a bounded loop with a 52-copy cap), create/edit, drop-to-reschedule, delete, and the event mapping.
- `KanbanView`: the board's conjunctive filter, column split and due-date buckets. `handleDragEnd` is modelled with its optimistic write and its rollback. `taskService.update`'s outcome is abstracted as returned, `null` or threw.
- `ExpenseReport`: the period ranges, the filter/sort pipeline, the summary (count, total, average, category totals, top category) and the filter reset.
- `InventoryService`: the in-memory `mockInventoryData` table as a class over a sequence. It covers `getAll`, `getById`, `create` (max id + 1), `update` (merge) and `delete` (splice).
- `InventoryForm`: `validateForm` as successive conditional writes into an error map, the `submitData` record, the custom-unit detection on open, `handleChange` and typing into the custom-unit box.
- `InventoryPage`: the sort toggle, clearing the filters, and the distinct sorted option lists.
- `CropHistory`: applyFilters, filter and sort; the distinct planting years; add/edit/delete; the statistics.
- `Farm`: add/edit/delete of farms and the search/type filter with its sort.
- `DataExport`: the record formatters, the date-range filter, the CSV text, the column-width rule, the combined sheet and the nested configuration update.
- `WeatherService`: `generateCropRecommendations`, threshold rules giving at most one alert and up to five recommendations in a fixed order.
- `FarmMap`: the canvas drawing state machine, field colours, field save/delete with the crop/task cascade, and the crop and task forms.
- `MainFeature`: the quick-entry panel's add handlers, the task toggle and the expense total.
- `Dates`, `Strings`, `Seqs`, `Wrappers`: shared libraries.
  - `Dates`: proleptic Gregorian day numbers, and day, week and month steps.
  - `Strings`: ASCII lower-casing, substring search, trimming with ECMAScript's white space, join/split, decimal text.
  - `Seqs`: filter, map, sum, insertion sort proved sorted and a permutation, distinct values, keyed totals with per-key sums.
  - `Wrappers`: Option and Result.

Conventions:

- A `'YYYY-MM-DD'` date is a `Dates.Civil`.
- `new Date(s).getTime()` is `Dates.Instant`, taken in UTC.
- Money is whole cents (`int`).
- Field geometry, areas and weather readings are `real`.
- JavaScript values whose type matters are modelled with their actual types:
  - FarmMap's numeric field ids against the text values of a `<select>`;
  - DataExport's falsy values.
  - Inventory ids, including `-Infinity` for the id `Math.max()` gives on an empty table.

## Model

| member | source | states |
|---|---|---|
| CalendarView.FrequencyOf | src/components/CalendarView.jsx:207-213 | a recurrence kind other than daily, weekly or monthly never advances the date |
| CalendarView.StepDateNumber | src/components/CalendarView.jsx:207-213 | one step keeps a valid date valid and moves it by 1 day, 7 days or the current month's length |
| CalendarView.OccurrenceNext | src/components/CalendarView.jsx:207-213 | the date after n+1 steps is one step after the date after n steps |
| CalendarView.OccurrenceValid | src/components/CalendarView.jsx:207-213 | every stepped date of a valid start date is a valid calendar date |
| CalendarView.GenerateSeries | src/components/CalendarView.jsx:193-219 | the loop (cap check, copy, step, counter) returns exactly the recursive series definition |
| CalendarView.SeriesFromUnfold | src/components/CalendarView.jsx:199-215 | while under the cap and not past the end, the series is the k-th copy followed by the rest |
| CalendarView.GenerateRecurringTasks | src/components/CalendarView.jsx:193-219 | returns the series for the frequency's step function |
| CalendarView.SeriesFromLength | src/components/CalendarView.jsx:199 | a series begun at counter k has at most 53 - k members |
| CalendarView.SeriesFromElements | src/components/CalendarView.jsx:200-205 | the i-th member of a series begun at k is the copy numbered k + i |
| CalendarView.SeriesFromWithin | src/components/CalendarView.jsx:199 | no member of a series is due after the end date |
| CalendarView.SeriesFromMaximal | src/components/CalendarView.jsx:199 | a series stops only at the cap or when the next date is past the end |
| CalendarView.RecurringTasksBound | src/components/CalendarView.jsx:199 | at most 52 copies are generated |
| CalendarView.RecurringTasksCopies | src/components/CalendarView.jsx:200-205 | copy k (1-based) is the base with id base.id + k, title "base (Week k)" and due date k-1 steps on; every other field is the base's |
| CalendarView.RecurringTasksWithinEnd | src/components/CalendarView.jsx:195-199 | every generated due date is on or before the end date |
| CalendarView.RecurringTasksMaximal | src/components/CalendarView.jsx:199 | generation stops only at 52 copies or when the next date would pass the end |
| CalendarView.RecurringTasksValid | src/components/CalendarView.jsx:200-213 | copies of a task with a valid date have valid dates |
| CalendarView.RecurringTasksEmptyIffLate | src/components/CalendarView.jsx:195-199 | the result is empty exactly when the base date is after the end date; otherwise the first copy carries the base due date |
| CalendarView.OccurrenceAdvances | src/components/CalendarView.jsx:207-213 | for daily, weekly and monthly every step moves the date strictly forward |
| CalendarView.OccurrenceIncreasing | src/components/CalendarView.jsx:207-213 | for daily, weekly and monthly, later step counts give strictly later dates |
| CalendarView.OccurrenceUnchanging | src/components/CalendarView.jsx:207-213 | with an unknown frequency every copy keeps the base date |
| CalendarView.OccurrenceArithmetic | src/components/CalendarView.jsx:207-210 | daily and weekly copies are exactly n and 7n days after the base date |
| CalendarView.RecurringTasksSteps | src/components/CalendarView.jsx:207-213 | consecutive copies are exactly one step (+1 day, +7 days, +1 month) apart |
| CalendarView.RecurringTasksOrder | src/components/CalendarView.jsx:195-213 | for daily, weekly and monthly the due dates strictly increase; for any other kind they all equal the base date |
| CalendarView.UnknownFrequencyHitsCap | src/components/CalendarView.jsx:199-213 | an unknown frequency with base on or before the end yields exactly 52 copies |
| CalendarView.WeeklyExample | src/components/CalendarView.jsx:193-219 | weekly from 2024-03-01 to 2024-03-22 gives four copies, the last due on the end date and titled "(Week 4)" |
| CalendarView.CalendarEvents | src/components/CalendarView.jsx:35-49 | one event per task, same id and title, a one-hour span from the due date, with the location and type defaults, and the priority, notes, recurring flag, completed flag and assigned crop/farm copied from the task |
| CalendarView.Calendar.constructor | src/components/CalendarView.jsx:12-33 | the calendar opens on the given tasks with a blank form dated today and no selection |
| CalendarView.Calendar.SelectEvent | src/components/CalendarView.jsx:110-126 | selecting an event loads its fields into the form, with the date whose midnight is the event's start, and leaves the tasks alone |
| CalendarView.SelectedStartIsDueDate | src/components/CalendarView.jsx:110-114 | for an event of the calendar mapping (whose `start` is `new Date(task.dueDate)`, CalendarView.jsx:38), the only date with the event's start instant is its task's due date, so the form is loaded with that date |
| Dates.InstantInjective | src/components/CalendarView.jsx:38 | two valid dates at the same midnight instant are the same date |
| Dates.DayNumberInjective | src/components/CalendarView.jsx:38 | two valid dates with the same day number are the same date |
| CalendarView.Calendar.Submit | src/components/CalendarView.jsx:138-191 | an empty title changes nothing; an edit rewrites the selected task; a create appends one open task or, when recurring with an end date, the whole series; the form is then reset |
| CalendarView.Calendar.EventDrop | src/components/CalendarView.jsx:128-136 | only the dropped task's due date changes; length and all other tasks unchanged |
| CalendarView.Calendar.Delete | src/components/CalendarView.jsx:221-228 | with a selection, exactly the tasks with its id are removed; otherwise nothing changes |
| CalendarView.NewTask | src/components/CalendarView.jsx:166-177 | the base task takes the clock as id, the form's title and date, and is not completed |
| CalendarView.ApplyEdit | src/components/CalendarView.jsx:145-164 | only tasks with the edited id are rewritten from the form; length and the other tasks unchanged |
| CalendarView.Reschedule | src/components/CalendarView.jsx:128-134 | only tasks with the dropped id get the new due date; everything else unchanged |
| CalendarView.DeleteKeepsOthers | src/components/CalendarView.jsx:221-224 | the remaining tasks are, in order, exactly those whose id differs |
| KanbanView.TransformStatus | src/components/KanbanView.jsx:72-84 | loaded tasks are in 'done' exactly when completed, in 'todo' otherwise |
| KanbanView.ApplyFiltersIsConjunction | src/components/KanbanView.jsx:93-149 | the chain of filters equals one filter by the conjunction of the four criteria over the defaulted tasks |
| KanbanView.ApplyFiltersSound | src/components/KanbanView.jsx:93-149 | the output is an order-preserving subsequence of the defaulted tasks holding exactly those that meet every criterion |
| KanbanView.ApplyFilters | src/components/KanbanView.jsx:93-149 | the reassigned filter chain over the defaulted tasks; its properties are stated by ApplyFiltersIsConjunction and ApplyFiltersSound |
| KanbanView.NoFiltersKeepAll | src/components/KanbanView.jsx:97-146 | with every criterion at 'all' or empty, all defaulted tasks are kept |
| KanbanView.InactiveCriteria | src/components/KanbanView.jsx:107-146 | an 'all' or empty criterion imposes no constraint |
| KanbanView.DateBuckets | src/components/KanbanView.jsx:121-141 | 'week' keeps 0..7 days until due, 'overdue' keeps negative days, 'today' keeps a due date equal to today |
| KanbanView.DaysUntilDue | src/components/KanbanView.jsx:214-220 | the ceiling of the millisecond difference is the due day number minus today's day number; no date gives no value |
| KanbanView.ColumnsPartition | src/components/KanbanView.jsx:41-46 | the four columns together hold exactly the filtered tasks whose status is a column id |
| KanbanView.ColumnContents | src/components/KanbanView.jsx:201-203 | a column is the order-preserving subsequence of tasks with that status |
| KanbanView.TasksByStatus | src/components/KanbanView.jsx:201-203 | one column's tasks; its properties are stated by ColumnContents and ColumnsPartition |
| KanbanView.FinalStatus | src/components/KanbanView.jsx:155-161 | dropping on a column takes its id; otherwise the target's status or 'todo' |
| KanbanView.Find | src/components/KanbanView.jsx:164 | finds the first task with the id, and nothing exactly when no task has it |
| KanbanView.MoveTask | src/components/KanbanView.jsx:168-173 | only the dragged task changes, getting the target status and completed iff the target is 'done' |
| KanbanView.Moved | src/components/KanbanView.jsx:169-171 | the dragged task with the new status and completed iff 'done'; stated through MoveTask |
| KanbanView.DragPayload | src/components/KanbanView.jsx:177-190 | the payload has completed iff the target is 'done', and a completion date (today) exactly then |
| KanbanView.ServiceUpdate | src/services/api/taskService.js:123-183 | the update never throws; it returns a record only on a successful response containing a success |
| KanbanView.FormOf | src/components/KanbanView.jsx:278-292 | the edit form carries the task's title, due date and priority, with the board defaults |
| KanbanView.FormPayload | src/components/KanbanView.jsx:231-242 | completed iff the form status is 'done', and a completion date exactly then |
| KanbanView.Board.constructor | src/components/KanbanView.jsx:18-40 | the board opens empty with a blank form |
| KanbanView.Board.LoadTasks | src/components/KanbanView.jsx:66-91 | a fetched list replaces the tasks transformed; a failed fetch keeps them and records the failure |
| KanbanView.Board.DragEnd | src/components/KanbanView.jsx:151-199 | no target or the same status: nothing changes and nothing is sent; otherwise the dragged task is moved and its payload sent, and a throw restores the snapshot |
| KanbanView.Board.SubmitTask | src/components/KanbanView.jsx:222-276 | without title or due date nothing happens; otherwise the form's payload goes to `update` with the edited task's id when editing and to `create` otherwise, a truthy answer reloads, and the form resets unless the call threw |
| KanbanView.Board.EditTask | src/components/KanbanView.jsx:278-292 | the form takes the task's fields and the edit targets its id |
| KanbanView.Board.DeleteTask | src/components/KanbanView.jsx:294-309 | only a confirmed delete that the service reports done removes the task; otherwise tasks unchanged |
| KanbanView.DeleteKeepsOthers | src/components/KanbanView.jsx:298-302 | the remaining tasks are, in order, exactly those with another id |
| ExpenseReport.ResetFilters | src/components/ExpenseReport.jsx:136-146 | every filter and sort field returns to its initial value |
| ExpenseReport.QuarterStartMonth | src/components/ExpenseReport.jsx:31-33 | the quarter begins in month 1, 4, 7 or 10, within the three months up to the current one |
| ExpenseReport.InstantBetween | src/components/ExpenseReport.jsx:53-54 | comparing midnight instants of dates is comparing their day numbers |
| ExpenseReport.DateRangeDays | src/components/ExpenseReport.jsx:18-45 | 'today' keeps today and tomorrow's midnight; 'week' the seven days before today and today; 'month', 'quarter' and 'year' from the first of the month, of the quarter's first month and of January up to today; any other period, 'all' included, from the epoch to now |
| ExpenseReport.DateRange | src/components/ExpenseReport.jsx:18-45 | the start and end instants of each period; its properties are stated by DateRangeDays |
| ExpenseReport.CustomRangeDefaults | src/components/ExpenseReport.jsx:37-40 | a custom range without bounds runs from the epoch to now |
| ExpenseReport.PrecedesPreorder | src/components/ExpenseReport.jsx:63-80 | the comparator for every key and order is a total preorder |
| ExpenseReport.FilteredExpensesSpec | src/components/ExpenseReport.jsx:48-80 | the result is a permutation of exactly the matching expenses, sorted by the chosen key and direction |
| ExpenseReport.FilteredExpenses | src/components/ExpenseReport.jsx:48-80 | the filter-then-sort pipeline; its properties are stated by FilteredExpensesSpec |
| ExpenseReport.InactiveCriteria | src/components/ExpenseReport.jsx:55-59 | 'all' category, empty search and no min/max leave only the date criterion |
| ExpenseReport.ResetShowsAllToToday | src/components/ExpenseReport.jsx:136-146 | after a reset the list holds exactly the expenses dated from the epoch to today, newest first |
| ExpenseReport.TopCategory | src/components/ExpenseReport.jsx:103 | a category of maximal total, the earliest such entry when totals tie (the stable sort), or ('N/A', 0) for no categories |
| ExpenseReport.Average | src/components/ExpenseReport.jsx:85 | total divided by count when count > 0, and 0 otherwise |
| ExpenseReport.CategoryTotals | src/components/ExpenseReport.jsx:86-90 | each category once, exactly those present, each entry holding the sum of that category's amounts, and all entries summing to the overall total |
| ExpenseReport.MonthlyTotals | src/components/ExpenseReport.jsx:91-95 | each (year, month) once, exactly those present, each entry holding the sum of that month's amounts; empty exactly when no expense is shown |
| ExpenseReport.SummaryOf | src/components/ExpenseReport.jsx:83-104 | count is the length, total the sum, average total/count, the category and monthly totals as above, the top category maximal among them, and averagePerDay the per-day share of the total over the months shown |
| ExpenseReport.PerDayDivisor | src/components/ExpenseReport.jsx:104 | `Math.max(1, months * 30)`: 1 with no month, otherwise thirty days per month |
| ExpenseReport.PerDay | src/components/ExpenseReport.jsx:104 | the per-day value times the divisor is exactly the total |
| ExpenseReport.TopCategoryIsLargestSum | src/components/ExpenseReport.jsx:86-103 | the top category is present, its value is the sum of its amounts, and no present category sums to more |
| ExpenseReport.Categories | src/components/ExpenseReport.jsx:108 | the category options are duplicate-free, exactly the categories present, and in order of first appearance: wherever a later option occurs, an earlier one has occurred before |
| Seqs.Distinct | src/components/ExpenseReport.jsx:108 | `[...new Set(s)]` is duplicate-free, holds exactly the values of `s`, and lists them in order of first occurrence |
| Seqs.SortedHeadIsFirst | src/components/ExpenseReport.jsx:103 | the first element after the stable sort is the first element of the input that no earlier element may precede |
| InventoryService.Merge | src/services/api/inventoryService.js:274 | a merge takes each field from the patch when present, and otherwise keeps the item's field, including the id |
| InventoryService.FullPatchReplaces | src/services/api/inventoryService.js:274 | a patch carrying every field replaces all of the item's data |
| InventoryService.MaxId | src/services/api/inventoryService.js:263 | the maximum is a numeric id held by a row and not below any row's id, or -Infinity when no row has one |
| InventoryService.NextIdFresh | src/services/api/inventoryService.js:263 | on a table with a numeric id, max + 1 is numeric and held by no row |
| InventoryService.NextIdWithoutNumbers | src/services/api/inventoryService.js:263 | on an empty table the next id is -Infinity |
| InventoryService.FindIndex | src/services/api/inventoryService.js:272-282 | the index of the first row with the parsed id, or -1 when none has it or the id does not parse |
| InventoryService.FilteredIsConjunction | src/services/api/inventoryService.js:208-237 | the filter chain keeps exactly the rows meeting search, category, unit, from and to together, in table order |
| InventoryService.Filtered | src/services/api/inventoryService.js:208-237 | the filter chain; its properties are stated by FilteredIsConjunction |
| InventoryService.MayPrecedePreorder | src/services/api/inventoryService.js:240-250 | for one sort field the comparator is a total preorder |
| InventoryService.SelectSpec | src/services/api/inventoryService.js:205-253 | the result is a permutation of exactly the matching rows, ordered by the field and direction |
| InventoryService.Select | src/services/api/inventoryService.js:205-253 | filter then sort; its properties are stated by SelectSpec |
| InventoryService.InventoryTable.constructor | src/services/api/inventoryService.js:1-202 | the table starts as the seed rows |
| InventoryService.InventoryTable.GetAll | src/services/api/inventoryService.js:205-253 | returns the selection and leaves the table unchanged |
| InventoryService.InventoryTable.GetById | src/services/api/inventoryService.js:255-258 | returns the first row with the parsed id, if any; table unchanged |
| InventoryService.InventoryTable.Create | src/services/api/inventoryService.js:260-268 | the new item takes max id + 1 and is appended last |
| InventoryService.InventoryTable.Update | src/services/api/inventoryService.js:270-278 | merges the patch into the first matching row only and returns it, or fails with the table unchanged |
| InventoryService.InventoryTable.Delete | src/services/api/inventoryService.js:280-288 | splices out and returns the first matching row, or fails with the table unchanged |
| InventoryService.CreateFresh | src/services/api/inventoryService.js:263-267 | create appends one row with an id no other row has, the others unchanged |
| InventoryService.DeleteOne | src/services/api/inventoryService.js:282-287 | delete keeps every other row in order and removes one occurrence of the deleted row |
| InventoryForm.KeyOf | src/components/InventoryForm.jsx:171-173 | a field's error key is never the custom-unit key |
| InventoryForm.SetField | src/components/InventoryForm.jsx:167-170 | changing a field sets that field and no other |
| InventoryForm.SubmittedUnit | src/components/InventoryForm.jsx:152 | the custom text when 'custom' is selected, the chosen unit otherwise |
| InventoryForm.SubmitData | src/components/InventoryForm.jsx:148-153 | the submitted record is the form with the parsed numbers and the resolved unit |
| InventoryForm.FormState.constructor | src/components/InventoryForm.jsx:6-22 | the form opens blank with no errors and no custom unit |
| InventoryForm.FormState.Open | src/components/InventoryForm.jsx:44-83 | opening clears errors; a new item gets today's date; an item with an unlisted unit gets 'custom' and that text |
| InventoryForm.FormState.ValidateForm | src/components/InventoryForm.jsx:85-136 | a key gets an error exactly when its rule fails, with its message, and the form is valid iff there is no error |
| InventoryForm.FormState.CheckIdentity | src/components/InventoryForm.jsx:88-98 | adds exactly the failing name, brand and category errors |
| InventoryForm.FormState.CheckAmount | src/components/InventoryForm.jsx:100-110 | adds exactly the failing quantity, unit and custom-unit errors |
| InventoryForm.FormState.CheckPurchase | src/components/InventoryForm.jsx:112-124 | adds exactly the failing price and purchase-date errors |
| InventoryForm.FormState.CheckPlace | src/components/InventoryForm.jsx:126-132 | adds exactly the failing supplier and location errors |
| InventoryForm.FormState.HandleChange | src/components/InventoryForm.jsx:167-182 | only that field changes and its error is cleared; a non-custom unit clears the custom text and hides the custom box |
| InventoryForm.FormState.SetCustomUnit | src/components/InventoryForm.jsx:319-324 | typing into the custom-unit box, which exists only while it is shown, sets the custom text and leaves form and errors alone |
| InventoryForm.CustomUnitRule | src/components/InventoryForm.jsx:108-110 | with 'custom' chosen, the custom-unit error is raised exactly for blank text, and that text is the unit submitted (line 152) |
| InventoryForm.FormState.Submit | src/components/InventoryForm.jsx:138-166 | sends the submitted record exactly when validation leaves no error |
| InventoryForm.EditUnitRoundTrip | src/components/InventoryForm.jsx:39-42 | opening an item and resubmitting gives back its original unit, listed or not |
| InventoryForm.PurchaseDateRule | src/components/InventoryForm.jsx:116-124 | a purchase dated today passes, and one dated after today fails |
| InventoryPage.HandleSort | src/components/Inventory.jsx:90-96 | the current field while 'asc' switches to 'desc'; anything else sets that field 'asc'; other filters kept |
| InventoryPage.HandleSortToggles | src/components/Inventory.jsx:90-96 | repeated sorts on one field alternate between 'asc' and 'desc', and a third sort repeats the first |
| InventoryPage.ClearFilters | src/components/Inventory.jsx:98-108 | all seven filter fields return to their defaults |
| InventoryPage.ClearedListsEverything | src/components/Inventory.jsx:98-108 | with cleared filters the table lists every row, sorted by name ascending |
| InventoryPage.Categories | src/components/Inventory.jsx:25 | the category options are duplicate-free, sorted and exactly the categories present |
| InventoryPage.Units | src/components/Inventory.jsx:26 | the unit options are duplicate-free, sorted and exactly the units present |
| CropHistory.NameOfFarm | src/components/CropHistory.jsx:249 | the name of the first farm with the id, or empty text when none has it |
| CropHistory.Entry | src/components/CropHistory.jsx:251-276 | a saved record carries the form's farm, its farm's name, the area and the yield (0 when blank) |
| CropHistory.EditRoundTrip | src/components/CropHistory.jsx:304-325 | loading a record into the form and saving it gives back the same record |
| CropHistory.InitialFilters | src/components/CropHistory.jsx:131-136 | the filters start empty, newest planting first, on the route's farm when there is one |
| CropHistory.FilteredIsConjunction | src/components/CropHistory.jsx:171-199 | the reassigned filter chain equals one filter by the conjunction of search, farm, year and status |
| CropHistory.Filtered | src/components/CropHistory.jsx:171-199 | the reassigned filter chain; its properties are stated by FilteredIsConjunction |
| CropHistory.MayPrecedePreorder | src/components/CropHistory.jsx:202-219 | on records with values of the sort field's kind, the comparator is a total preorder |
| CropHistory.ViewSpec | src/components/CropHistory.jsx:171-219 | the view is a permutation of exactly the matching records, sorted when all are orderable |
| CropHistory.View | src/components/CropHistory.jsx:171-219 | filter then sort; its properties are stated by ViewSpec, ViewMembers and ViewSorted |
| CropHistory.ViewMembers | src/components/CropHistory.jsx:171-199 | a record is shown exactly when it is stored and matches |
| CropHistory.ViewSorted | src/components/CropHistory.jsx:202-219 | each shown record may precede every later one |
| CropHistory.NewestFirstPair | src/components/CropHistory.jsx:202-219 | the default order puts a record before another when it was planted no earlier |
| CropHistory.NewestFirst | src/components/CropHistory.jsx:202-219 | the default view lists planting dates from newest to oldest |
| CropHistory.AvailableYears | src/components/CropHistory.jsx:224-229 | each planting year once, exactly the years present, in descending order |
| CropHistory.PlantingYears | src/components/CropHistory.jsx:225 | the mapped years are exactly the planting years of the records |
| CropHistory.TotalArea | src/components/CropHistory.jsx:335 | the area sum is NaN exactly when some record's area is NaN |
| CropHistory.TotalYieldAppend | src/components/CropHistory.jsx:336 | the yield sum over two lists is the sum of their sums |
| CropHistory.TotalAreaAppend | src/components/CropHistory.jsx:335 | the area sum over two lists is the sum of their sums, NaN if either is |
| CropHistory.CalculateStats | src/components/CropHistory.jsx:334-341 | sums over the list, harvested count at most the length, rate 0 on an empty list and 100 iff all harvested |
| CropHistory.SuccessRate | src/components/CropHistory.jsx:338 | between 0 and 100, 0 for no records, 100 exactly when every one succeeded |
| CropHistory.CropHistoryPage.constructor | src/components/CropHistory.jsx:130-161 | the page opens on the seed records, all shown, with the initial filters and a blank form |
| CropHistory.CropHistoryPage.ApplyFilters | src/components/CropHistory.jsx:171-219 | the shown list becomes the view of the records under the filters |
| CropHistory.CropHistoryPage.AddCropHistory | src/components/CropHistory.jsx:241-280 | without farm, crop name or planting date nothing changes; an edit replaces only the edited record; an add appends one record |
| CropHistory.CropHistoryPage.EditCrop | src/components/CropHistory.jsx:304-325 | the form takes the record's fields and opens on it |
| CropHistory.CropHistoryPage.DeleteCrop | src/components/CropHistory.jsx:327-332 | a confirmed delete removes exactly the records with the id |
| CropHistory.AddRaisesYield | src/components/CropHistory.jsx:267-276 | adding a record raises the total yield by its yield, 0 when blank |
| Farm.Merged | src/components/Farm.jsx:68-75 | the edit keeps id and crops, takes the form's fields and forces status 'Active' |
| Farm.NewFarm | src/components/Farm.jsx:76-85 | a new farm has no crops, status 'Active' and the form's fields |
| Farm.FormOf | src/components/Farm.jsx:105-118 | the edit form is complete exactly when the farm has a name and a location |
| Farm.EditRoundTrip | src/components/Farm.jsx:68-75 | editing without changes gives back the farm with status 'Active' |
| Farm.LePreorder | src/components/Farm.jsx:138-149 | the name, size and established comparators are total preorders |
| Farm.FilteredFarmsSpec | src/components/Farm.jsx:131-149 | a permutation of exactly the farms matching search and type, sorted by the key |
| Farm.FilteredFarms | src/components/Farm.jsx:131-149 | filter by search and type, then sort; its properties are stated by FilteredFarmsSpec |
| Farm.NoFilterKeepsAll | src/components/Farm.jsx:131-137 | empty search under 'all' keeps every farm |
| Farm.FarmPage.constructor | src/components/Farm.jsx:9-56 | the page opens on the seed farms with a blank, closed form |
| Farm.FarmPage.AddFarm | src/components/Farm.jsx:61-89 | an incomplete form changes nothing; an edit merges into the matching farm only; an add appends one farm |
| Farm.FarmPage.EditFarm | src/components/Farm.jsx:105-118 | the form takes the farm's fields and opens on it |
| Farm.FarmPage.DeleteFarm | src/components/Farm.jsx:120-125 | a confirmed delete removes exactly the farms with the id |
| DataExport.Or | src/components/DataExport.jsx:32-34 | `v \|\| fallback` is v when truthy, the fallback otherwise |
| DataExport.Headers | src/components/DataExport.jsx:85 | the header list has one entry per key, in key order |
| DataExport.Lookup | src/components/DataExport.jsx:88 | a missing key reads as undefined |
| DataExport.LookupFirst | src/components/DataExport.jsx:88 | a key reads as the value it was given first |
| DataExport.Set | src/components/DataExport.jsx:164-166 | after setting a key it reads as the new value |
| DataExport.SetKeepsOthers | src/components/DataExport.jsx:164-166 | setting one key leaves every other key's value |
| DataExport.SetHeaders | src/components/DataExport.jsx:164-166 | setting a key keeps the key order and appends a new key last |
| DataExport.Format | src/components/DataExport.jsx:25-61 | a formatted row has one entry per column, with its header and cell value |
| DataExport.FormatAll | src/components/DataExport.jsx:25-61 | one formatted row per record, in order |
| DataExport.LookupFormat | src/components/DataExport.jsx:25-61 | a column's header reads as its cell value when no earlier column shares it |
| DataExport.TaskStatus | src/components/DataExport.jsx:43 | a task's Status is 'Completed' iff completed is truthy, 'Pending' otherwise |
| DataExport.CropExpectedHarvest | src/components/DataExport.jsx:32 | a crop's Expected Harvest is its value when truthy, 'Not set' otherwise |
| DataExport.DefaultedNeverBlank | src/components/DataExport.jsx:32-59 | a column with a non-empty default is never falsy |
| DataExport.Changed | src/components/DataExport.jsx:185-198 | a dotted field changes only that child of the parent group; a plain field changes only that key |
| DataExport.DottedField | src/components/DataExport.jsx:185-198 | after changing 'a.b', the child b of a reads as the new value |
| DataExport.FilterByDate | src/components/DataExport.jsx:63-77 | the identity without bounds; otherwise an in-order subsequence of exactly the items within the given bounds |
| DataExport.QuoteAddsOnlyQuotes | src/components/DataExport.jsx:88 | quoting adds no character but the double quote |
| DataExport.Csv | src/components/DataExport.jsx:79-96 | no CSV at all exactly for empty data |
| DataExport.DataLineNotEmpty | src/components/DataExport.jsx:86-89 | with at least one header a data line is never empty |
| DataExport.CsvLayout | src/components/DataExport.jsx:84-90 | the text is the header line (when asked for) then one data line per row, joined by newlines |
| DataExport.DataLineFields | src/components/DataExport.jsx:86-89 | without commas in the values, splitting a data line on ',' gives one quoted value per header, falsy values as "" |
| DataExport.HeaderLineFields | src/components/DataExport.jsx:85 | without commas in the headers, splitting the header line gives the headers back |
| DataExport.Width | src/components/DataExport.jsx:108-113 | a column width is the maximum of the header length and every value's length, attained by one of them |
| DataExport.ColumnWidths | src/components/DataExport.jsx:108-113 | one width per key of the first row, each the column's width |
| DataExport.ExportToExcel | src/components/DataExport.jsx:98-127 | no data anywhere warns; otherwise one sheet per dataset with rows, in order |
| DataExport.TagRows | src/components/DataExport.jsx:164-166 | tagging keeps the number of rows |
| DataExport.TagRowsAt | src/components/DataExport.jsx:164-166 | the j-th tagged row is the j-th row with its Data Type set |
| DataExport.OffsetPrefix | src/components/DataExport.jsx:164-166 | a dataset's offset does not depend on the datasets after it |
| DataExport.CombinedSize | src/components/DataExport.jsx:164-166 | the combined sheet has as many rows as all datasets together |
| DataExport.CombinedAt | src/components/DataExport.jsx:164-166 | row j of dataset i sits at its offset plus j, tagged with the dataset's sheet name |
| DataExport.CombinedLayout | src/components/DataExport.jsx:164-166 | the combined rows are the datasets' tagged rows one after another |
| DataExport.CombinedSlice | src/components/DataExport.jsx:164-166 | dataset i's slice of the combined rows is its tagged rows |
| DataExport.CombinedSliceBound | src/components/DataExport.jsx:164-166 | dataset i's slice lies within the combined rows |
| DataExport.OffsetBound | src/components/DataExport.jsx:164-166 | no offset exceeds the total row count |
| DataExport.CombinedTags | src/components/DataExport.jsx:164-166 | every combined row reads its dataset's sheet name under 'Data Type' |
| DataExport.Selected | src/components/DataExport.jsx:133-151 | one dataset per ticked type, so none exactly when no type is ticked |
| DataExport.InitialSettings | src/components/DataExport.jsx:8-21 | the dialog starts with all three types ticked, no date bounds, Excel, headers and separate sheets |
| DataExport.InitialSelection | src/components/DataExport.jsx:8-21 | with the initial settings all three datasets are exported unfiltered |
| DataExport.FullSelection | src/components/DataExport.jsx:133-151 | with all types ticked and no bounds the three formatted datasets are selected in order |
| DataExport.Deliver | src/components/DataExport.jsx:153-176 | no selection warns; CSV gives one file per dataset, named by it and holding `convertToCSV(data, includeHeaders)`, with no file text exactly for an empty dataset; Excel gives separate sheets or one combined sheet |
| DataExport.CombinedSheet | src/components/DataExport.jsx:164-167 | the single 'Farm Data' sheet holds every selected row tagged with its type |
| DataExport.ExportDialog.constructor | src/components/DataExport.jsx:8-21 | the dialog opens with the initial configuration |
| DataExport.ExportDialog.ConfigChange | src/components/DataExport.jsx:185-198 | the configuration becomes the changed one |
| DataExport.ExportDialog.Export | src/components/DataExport.jsx:129-183 | the outcome is what delivering the selection gives |
| WeatherService.Take | src/services/weatherService.js:112 | the first n days, or all when fewer |
| WeatherService.AnyRain | src/services/weatherService.js:112 | true exactly when some day has precipitation chance above 60 |
| WeatherService.MidpointsAreHalfExtremes | src/services/weatherService.js:147 | the sum of day midpoints is half the sum of highs and lows |
| WeatherService.PlantingWindow | src/services/weatherService.js:147-157 | the average lies in 65..75 exactly when the first seven days' highs and lows sum to 910..1050 |
| WeatherService.Rule | src/services/weatherService.js:112-168 | a rule contributes its recommendation exactly when it fires, at most one |
| WeatherService.AlertsSpec | src/services/weatherService.js:89-109 | frost iff below 35, heat iff above 90, hence at most one alert |
| WeatherService.Alerts | src/services/weatherService.js:89-109 | the alert kinds in push order; its properties are stated by AlertsSpec |
| WeatherService.ConcatInRuleOrder | src/services/weatherService.js:112-168 | joining two rule-ordered lists, the later of higher rank, stays in rule order |
| WeatherService.AdviceMembers | src/services/weatherService.js:112-170 | exactly the recommendations whose rule fires, at most five |
| WeatherService.Advice | src/services/weatherService.js:112-168 | the recommendation kinds, rule after rule; its properties are stated by AdviceMembers and AdviceOrder |
| WeatherService.AdviceOrder | src/services/weatherService.js:112-170 | the order is rain, wind, UV, planting, pest, none twice |
| WeatherService.TitleInjective | src/services/weatherService.js:112-168 | different recommendations have different titles |
| WeatherService.EntriesAreAdvice | src/services/weatherService.js:112-168 | the pushed records are the Advice kinds, each with its title and priority |
| WeatherService.AlertEntriesSpec | src/services/weatherService.js:89-109 | a high-severity 'Frost Warning' exactly below 35, a medium 'Heat Advisory' exactly above 90, at most one record |
| WeatherService.EntryTitlesDistinct | src/services/weatherService.js:112-168 | every pushed record's rule fires, and no title is pushed twice |
| WeatherService.RuleEntryMembers | src/services/weatherService.js:112-168 | a pushed record is the record of a rule that fires |
| WeatherService.HighPriorityIsWind | src/services/weatherService.js:123-133 | the only high-priority record is the 'High Wind Advisory', pushed exactly when the wind rule fires |
| WeatherService.GenerateCropRecommendations | src/services/weatherService.js:84-171 | the pushed records are exactly the alert records and the rule-by-rule recommendation records, with their titles, severities and priorities, for the reading |
| FarmMap.FieldColor | src/components/FarmMap.jsx:119-129 | an unknown field type gets '#22c55e' |
| FarmMap.FieldColorsDistinct | src/components/FarmMap.jsx:119-129 | the six field types have six different colours |
| FarmMap.Started | src/components/FarmMap.jsx:70-89 | a new field is zero-size at the cursor, named "Field n+1", cropland and coloured |
| FarmMap.Stretched | src/components/FarmMap.jsx:91-105 | the origin is kept, the far corner is the cursor and the area is the size over 1000 |
| FarmMap.Edited | src/components/FarmMap.jsx:150-158 | an edit keeps position and size, takes the form's fields and recolours by type |
| FarmMap.EditUnchanged | src/components/FarmMap.jsx:131-158 | saving an unchanged form changes only the colour, and nothing for a coloured field |
| FarmMap.NewCrop | src/components/FarmMap.jsx:181-185 | a saved crop carries the select's text as its field and the form's fields |
| FarmMap.NewTask | src/components/FarmMap.jsx:206-211 | a saved task carries the select's text as its field, the form's fields and status 'pending' |
| FarmMap.AsWrittenNeverMatches | src/components/FarmMap.jsx:165-173 | under the strict test no form-made crop or task is listed under a field, and deleting a field keeps them all |
| FarmMap.StrictTestMissesFormCrop | src/components/FarmMap.jsx:168-169 | a crop saved for field 5 survives deleting field 5 under the strict test |
| FarmMap.FieldCrops | src/components/FarmMap.jsx:243 | exactly the crops that belong to the field |
| FarmMap.FieldTasks | src/components/FarmMap.jsx:244 | exactly the tasks that belong to the field |
| FarmMap.KeptCrops | src/components/FarmMap.jsx:168 | an in-order subsequence of exactly the crops not belonging to the field |
| FarmMap.KeptTasks | src/components/FarmMap.jsx:169 | an in-order subsequence of exactly the tasks not belonging to the field |
| FarmMap.SignChar | src/components/FarmMap.jsx:600-606 | an id's text starts with '-' exactly when it is negative |
| FarmMap.NatToStringInjective | src/components/FarmMap.jsx:600-606 | different non-negative ids have different texts |
| FarmMap.IntToStringInjective | src/components/FarmMap.jsx:600-606 | different ids have different texts |
| FarmMap.OptionBelongs | src/components/FarmMap.jsx:600-606 | a select value names exactly the field it was made from |
| FarmMap.DeletedFieldHasNothing | src/components/FarmMap.jsx:165-173 | after deleting a field no crop or task belongs to it |
| FarmMap.SavedCropListed | src/components/FarmMap.jsx:175-198 | a crop saved for a field is listed under that field |
| FarmMap.DeleteKeepsValid | src/components/FarmMap.jsx:165-173 | deleting keeps every remaining field drawn, coloured, and every record from a complete form |
| FarmMap.FarmMapPage.constructor | src/components/FarmMap.jsx:23-65 | the map opens empty, not drawing, with the select tool and blank forms |
| FarmMap.FarmMapPage.ChooseTool | src/components/FarmMap.jsx:29 | the chosen tool becomes current |
| FarmMap.FarmMapPage.MouseDown | src/components/FarmMap.jsx:70-89 | with the field tool a new field starts at the cursor; any other tool does nothing |
| FarmMap.FarmMapPage.MouseMove | src/components/FarmMap.jsx:91-105 | the field in progress stretches to the cursor, only while drawing |
| FarmMap.FarmMapPage.MouseUp | src/components/FarmMap.jsx:107-117 | the field is kept iff both sides exceed 20; drawing ends and the tool returns to select |
| FarmMap.FarmMapPage.FieldClick | src/components/FarmMap.jsx:131-142 | with the select tool the clicked field is selected and loaded into the form |
| FarmMap.FarmMapPage.FieldSave | src/components/FarmMap.jsx:144-163 | a blank name is rejected, and so is a save with no selection while fields exist (reading the missing selection's id throws); otherwise only the selected field takes the form and its colour |
| FarmMap.FarmMapPage.FieldDelete | src/components/FarmMap.jsx:165-173 | a confirmed delete removes the field and every crop and task that belongs to it |
| FarmMap.FarmMapPage.CropSave | src/components/FarmMap.jsx:175-198 | without field, crop type and farm nothing changes; otherwise one crop is appended and the form cleared |
| FarmMap.FarmMapPage.TaskSave | src/components/FarmMap.jsx:200-224 | without a field or with a blank title nothing changes; otherwise one pending task is appended |
| MainFeature.NewCrop | src/components/MainFeature.jsx:58-63 | the crop takes the form's fields, the area and status 'Planning' |
| MainFeature.NewTask | src/components/MainFeature.jsx:78-82 | the task takes the form's fields and is not completed |
| MainFeature.NewExpense | src/components/MainFeature.jsx:97-101 | the expense takes the form's fields and amount |
| MainFeature.Toggled | src/components/MainFeature.jsx:109-116 | same length; only the matching tasks' completed flag flips, nothing else changes |
| MainFeature.ToggleTwice | src/components/MainFeature.jsx:109-116 | toggling the same task twice gives the list back |
| MainFeature.ToggleMissing | src/components/MainFeature.jsx:109-116 | toggling an id no task has changes nothing |
| MainFeature.TotalAppend | src/components/MainFeature.jsx:449 | recording an expense raises the total by its amount |
| MainFeature.SeedTotal | src/components/MainFeature.jsx:16-19 | the opening total is $135.49 |
| MainFeature.Panel.constructor | src/components/MainFeature.jsx:8-43 | the panel opens on the seed lists with blank, closed forms |
| MainFeature.Panel.AddCrop | src/components/MainFeature.jsx:51-69 | an incomplete form changes nothing; otherwise one 'Planning' crop is appended and the form cleared |
| MainFeature.Panel.AddTask | src/components/MainFeature.jsx:71-88 | a missing title or due date changes nothing; otherwise one open task is appended |
| MainFeature.Panel.AddExpense | src/components/MainFeature.jsx:90-107 | a missing description, amount or date changes nothing; otherwise one expense is appended and the total grows by its amount |
| MainFeature.Panel.ToggleTask | src/components/MainFeature.jsx:109-116 | the list becomes the toggled list |
| Dates.AddMonthNumber | src/components/CalendarView.jsx:211 | `setMonth(m + 1)` moves a valid date forward by the length of its month |
| Dates.AddMonth | src/components/CalendarView.jsx:211 | `setMonth(m + 1)` with day overflow; stated by AddMonthNumber |
| Dates.AddWeekNumber | src/components/CalendarView.jsx:209 | `setDate(d + 7)` moves a valid date forward by seven days |
| Dates.AddWeek | src/components/CalendarView.jsx:209 | `setDate(d + 7)`; stated by AddWeekNumber |
| Dates.NextDayNumber | src/components/CalendarView.jsx:207 | `setDate(d + 1)` moves a valid date forward by one day |
| Dates.NextDay | src/components/CalendarView.jsx:207 | `setDate(d + 1)`; stated by NextDayNumber |
| Dates.DaysUntilIsDayDifference | src/components/KanbanView.jsx:214-220 | the ceiling of the millisecond difference in days is the day-number difference |
| Dates.DaysUntil | src/components/KanbanView.jsx:214-220 | the ceiling of the millisecond difference in days; stated by DaysUntilIsDayDifference |
| Seqs.Totals | src/components/ExpenseReport.jsx:86-95 | the keyed reduce: each key once, exactly the keys present, the value of each key the sum over the elements with that key, and all values summing to the total |
| Seqs.TotalsEntries | src/components/ExpenseReport.jsx:86-95 | each entry's value is the sum over exactly the elements with that entry's key |
| Seqs.SumWhereIsFilteredSum | src/components/ExpenseReport.jsx:86-95 | the per-key sum equals the reduce-sum over the list filtered to that key |
| Strings.ContainsIffOccurs | src/components/Farm.jsx:133-134 | `includes` is true exactly when the term occurs at some index |
| Strings.IsBlankIsTrimEmpty | src/components/InventoryForm.jsx:88 | a value is blank exactly when it trims to empty text, with every ECMAScript white-space and line-terminator character (no-break space, byte-order mark, the Unicode space separators, line and paragraph separators included) trimmed |
| Strings.SortedDistinct | src/components/Inventory.jsx:25-26 | `[...new Set(xs)].sort()` is duplicate-free, sorted and holds exactly the values present |

## Findings

| source | as written | input that shows it | evidently intended | confidence | as-written member | corrected member |
|---|---|---|---|---|---|---|
| src/components/FarmMap.jsx:168-169, 243-244 | crops and tasks are matched to a field with `===`/`!==` between their `fieldId`, which is the text value of a `<select>` (600-606, 720-726), and the field's numeric id (74) | a crop saved for field 5 has fieldId "5"; deleting field 5 keeps it, and field 5 lists no crops | a record belongs to the field its select value names, so deleting a field removes its crops and tasks, and a field lists what was saved for it | not executed | FarmMap.StrictTestMissesFormCrop | FarmMap.DeletedFieldHasNothing |

The as-written comparison is `FarmMap.BelongsAsWritten`. The lists it gives are `FarmMap.FieldCropsAsWritten`, `FarmMap.FieldTasksAsWritten`, `FarmMap.KeptCropsAsWritten` and `FarmMap.KeptTasksAsWritten`. `FarmMap.AsWrittenNeverMatches` proves that, for any records made through the forms, nothing is ever listed under a field and deleting a field keeps everything.

The corrected comparison, `FarmMap.Belongs`, accepts a number equal to the id or a text equal to the id's decimal text. `FarmMap.OptionBelongs` and `FarmMap.IntToStringInjective` show that it picks out exactly the field the select value came from. `FarmMap.FarmMapPage.FieldDelete` and `FarmMap.SavedCropListed` use it.

## Left out

- FarmMap.FarmMapPage.FieldDelete: uses the corrected field test (see Findings), not the strict comparison the source writes; the as-written behaviour is stated by `FarmMap.AsWrittenNeverMatches`.
- Time zones and date parsing:
  - `new Date(s)` is taken as UTC midnight of the date, and `toISOString` as the same calendar date.
  - Local `setDate`/`setMonth` are the calendar steps of `Dates`.
  - "today" and `Date.now()` are parameters.
- Floating point is not modelled:
  - Areas, yields, weather readings and averages are exact reals.
  - The `toFixed(2)` of the drawn area (FarmMap.jsx:103) and the `toFixed(1)` of the success rate are taken unrounded.
  - Amounts parsed with `parseFloat` are given numbers, in whole cents for expenses.
- FarmMap's field form opens with an area of `''`; it is modelled as 0.0.
- `localeCompare` is modelled as `Strings.LexLe`, lexicographic order on characters. `toLowerCase` is ASCII lower-casing.
- Strings.LexLe: orders Unicode scalar values, where JavaScript's `<`, `>` and default `sort()` compare UTF-16 code units; the two differ only when a character above U+FFFF meets one in U+E000..U+FFFF (the model puts the astral character last, JavaScript puts it first).
- DataExport.Width: a string's length counts Unicode scalar values, where `.length` counts UTF-16 code units, so a character above U+FFFF counts once instead of twice.
- Tie order: the comparators that never return 0 (CropHistory.jsx:214-218, inventoryService.js:245-249) are specified by sortedness and permutation only. The order among equal keys is not modelled.
- Farm.FilteredFarmsSpec, ExpenseReport.FilteredExpensesSpec: these comparators do return 0 on equal keys (Farm.jsx:138-148, ExpenseReport.jsx:63-79), so `Array.prototype.sort`, which is stable, keeps such farms and expenses in their input order. The model's insertion sort is specified by sortedness and permutation only, so the order among equal keys is left open.
- Toasts are display effects. Where a handler's choice of message matters it is a returned notice; the text is left out.
- Async interleaving is not modelled: stale closures and a second drag while a request is in flight. Each handler is one atomic step with the remote answer as a parameter.
- KanbanView.ServiceUpdate: `Returned` takes `successfulUpdates[0].data` (taskService.js:172) to be a record. A success whose `data` is missing would return `undefined`, and the board would then skip the reload and keep the task in editing; that case is not modelled.
- The ApperClient service wrappers (cropHistoryService, farmService, cropService, taskService, expenseService) are left out, except `taskService.update`'s outcome (`KanbanView.ServiceUpdate`). They wrap an SDK that is not shown.
- src/App.jsx, src/pages/Home.jsx, src/pages/NotFound.jsx and src/components/WeatherWidget.jsx are presentation and session plumbing. They are not part of this model.
- weatherService `getCurrentWeather`/`getForecast` are left out: they draw random numbers after a timeout.
- The alert and recommendation message, icon and action texts are display text; only the kind, the title and the priority are modelled.
- `handleSelectSlot` (CalendarView.jsx:92-108) is left out. It does not parse: a comma is missing and `recurringEnd` is given twice. It only resets form defaults.
- The CropHistory route's farm id is taken already parsed; `parseInt` giving NaN is not modelled.
- DataExport:
  - Writing XLSX cells and files is left out; only the sheets, their rows and the column widths are modelled.
  - `json_to_sheet` writing its own header row whatever `includeHeaders` says is left out.
  - The date suffix of the file name and the `isExporting` flag are left out.
- DataExport.Csv: the text is modelled exactly as built, without escaping of embedded quotes or commas, as the source does.
- DataExport.Changed: a dotted update whose parent holds a string rather than a group is modelled as spreading an empty group.
- The FarmMap `exportMapData` JSON download (FarmMap.jsx:226-241) is a file download and is left out.
- The FarmMap farms list is left out; it is a fixed list of names for a select.
- The MainFeature colour helpers (MainFeature.jsx:118-135) are display lookups and are left out.
- FarmMap.FieldColor: `colors[type]` on an inherited object key (such as `constructor`) would return that property; only own keys and the default are modelled.
- Rendering, framer-motion, the Konva canvas, dnd-kit sensors and react-big-calendar are left out; their events are method calls.
