# Finance and task dashboard — a verified model of its logic

The application is a personal dashboard written in TypeScript and React on a hosted
backend. It keeps income, expenses and savings goals; charts monthly income and weekday
spending; runs a task board; shows a date picker; and manages a photo gallery. This
project models the parts of it that are plain sequential logic, each as a Dafny module
named after the source file it follows:

- **DashboardStore** (`src/store/Dashboard.ts`): the dashboard store as a class. Its
  `initialize`, `addBalance`, `addExpence` and `addGoal` transitions are pure functions
  over a state snapshot. They cover authentication and backend-error outcomes, the
  balance clamped at 0, goal crediting and the expense category taken from the goal.
- **ChartDataHook** (`src/hooks/useChartData.tsx`) and **DashboardView**
  (`src/components/Main/Main.tsx`): parsing `"DD.MM.YYYY, hh:mm:ss"` timestamps, the
  12-slot monthly income series, the 12-entry chart data, the 7-slot weekday expense
  series and the pie-chart slices. The inline monthly loop of the dashboard page has no
  `try`, so it is modelled with an error outcome.
- **TaskStore** (`src/store/TaskStore.ts`): the task list kept sorted by `order`, as a
  class. It covers fetch, add with `max + 1`, edit, delete and drag, with the
  re-sorting proved sorted, a permutation, and stable.
- **TaskBoard** (`src/components/Tasks/Main.tsx`): the local board as a class. It
  covers the four-predicate filter, the three-state status cycle, the splice-based move
  on drop, the form and modal handlers, submit and delete.
- **TaskStatus** (`src/helpers/task-status.ts`): the status table and the option lists
  derived from it.
- **Calendar** (`src/ui/calendar.tsx`): the date picker as a class. It covers month
  lengths, the Monday-based first weekday, month and year navigation, the click
  handlers, and the day and year grids built by loops.
- **GalleryViewer** (`src/components/Gallery/Items/Main.tsx`): the circular image
  viewer, the key dispatch, the fetch handlers and the upload loop with its progress
  values.
- **GalleryFolders** (`src/components/Gallery/Main.tsx`): the folder list handlers and
  the file-extension badge.
- **ProfileSync** (`src/lib/checkerAuth.tsx`): the profile fields resolved through
  `or` fallback chains, the abort/insert/update decision, and the session branch.
- **IncomeModal**, **ExpenceModal** and **AmountField**
  (`src/components/Modals/Dashboard/*.tsx`): the digit-only amount handlers and the
  other form handlers.

Shared modules model what the code takes from the JavaScript runtime:

- **JsDate**: `new Date(y, m, d, h, mi, s)` with its roll-over of out-of-range parts,
  the mapping of years 0..99 to 19xx, `getMonth` and `getDay`. These follow the
  `MakeDay`/`WeekDay` operations of ECMA-262, and a date is shown to be determined by
  its day number.
- **Text**: `String.prototype.split` and its inverse `join`, `Number` on digit strings,
  upper and lower case on the ASCII, Latin-1 and basic Cyrillic letters, and `trim`-blankness.
- **Buckets**: the generic "add each record's price to the slot it names" loop
  behind both charts.
- **Wrappers**: `Option` and `Response`.

Backend calls, the clock, generated ids and locale-formatted strings are parameters of
the operations that use them: a backend call becomes an `Ok`/`Err` outcome; "now", a
fresh id and a `toLocaleString` result become arguments.

## Model

| member | source | states |
|---|---|---|
| Buckets.FillSlots | src/hooks/useChartData.tsx:10-40 | The slot-filling loop over the records computes exactly the bucketed sums |
| Buckets.SlotIsTotal | src/hooks/useChartData.tsx:16-40 | Slot k after the loop is the total price of the records that name slot k |
| Buckets.SlotsAddUp | src/hooks/useChartData.tsx:16-40 | The slots add up to the total price of the records that name any slot |
| Buckets.SkippedRecord | src/hooks/useChartData.tsx:17-38 | A skipped record leaves every slot as if it were absent, wherever it stands in the list |
| Buckets.AppendNamed | src/hooks/useChartData.tsx:33-35 | A record naming slot k adds its price to slot k and to no other slot |
| Buckets.TotalConcat | src/hooks/useChartData.tsx:16-40 | A slot's total over a concatenation is the sum of the two totals |
| Buckets.ThrowIff | src/components/Main/Main.tsx:69-80 | The loop without a catch fails exactly when some record throws |
| Buckets.ThrownStays | src/components/Main/Main.tsx:69-80 | Once a prefix has thrown, the whole loop has thrown |
| Buckets.NoThrowAgrees | src/components/Main/Main.tsx:69-80 | When no record throws, the uncaught loop gives the same slots as the skipping loop |
| Buckets.FillSlotsOrThrow | src/components/Main/Main.tsx:66-81 | The uncaught loop computes the bucketed sums, or the failure |
| Buckets.ZerosSum | src/hooks/useChartData.tsx:10 | The zero-filled slots add up to 0 |
| Buckets.SumUpdate | src/hooks/useChartData.tsx:34 | Adding p to one slot adds p to the sum of the slots |
| Text.IndexOf | src/hooks/useChartData.tsx:19 | A found separator really occurs at the returned position, at or after the start |
| Text.IndexOfFirst | src/hooks/useChartData.tsx:19 | The returned position is the first occurrence; none means no occurrence at all |
| Text.Split | src/hooks/useChartData.tsx:19-21 | `split` always returns at least one piece |
| Text.JoinSplit | src/hooks/useChartData.tsx:19-21 | Joining the pieces of a split with the separator gives back the string |
| Text.SplitJoin | src/hooks/useChartData.tsx:19-21 | Splitting a join of separator-free pieces gives back the pieces |
| Text.SkipUnmatched | src/hooks/useChartData.tsx:19 | The separator search may skip characters that cannot start an occurrence |
| Text.DecimalString | src/components/Modals/Dashboard/IncomeModal.tsx:48-49 | The decimal text of n is a digit string with no leading zero |
| Text.DecimalRoundTrip | src/components/Modals/Dashboard/IncomeModal.tsx:49 | Reading back the decimal text of n gives n |
| Text.LeadingZero | src/components/Modals/Dashboard/IncomeModal.tsx:49 | A leading zero does not change a digit string's value |
| Text.Padded | src/store/Dashboard.ts:126 | Zero-padded numbers are digit strings at least as wide as asked |
| Text.ZeroPrefixed | src/store/Dashboard.ts:126 | Prefixing zeros keeps the digits' value and adds their count to the length |
| Text.PaddedValue | src/store/Dashboard.ts:126 | A zero-padded number reads back as the number |
| Text.ToUpper | src/components/Gallery/Main.tsx:102 | `toUpperCase` upper-cases each ASCII, Latin-1 and basic Cyrillic lower-case letter in place and keeps every other character |
| Text.ToLower | src/components/Tasks/Main.tsx:93-94 | `toLowerCase` lower-cases each ASCII, Latin-1 and basic Cyrillic upper-case letter in place and keeps every other character |
| JsDate.DaysInMonth | src/ui/calendar.tsx:103-105 | A month has 28 to 31 days; February has 29 exactly in leap years |
| JsDate.MakeFullYear | src/hooks/useChartData.tsx:23-30 | Years 0..99 become 1900..1999; every other year is kept |
| JsDate.WeekDay | src/components/Main/Main.tsx:125 | The weekday is in 0..6 and steps with the day number, day 0 being a Thursday |
| JsDate.NextYear | src/hooks/useChartData.tsx:23-30 | The first day of year y+1 is the first day of y plus the length of y |
| JsDate.DaysBeforeNextMonth | src/hooks/useChartData.tsx:23-30 | The days before month m+1 are those before m plus the length of m |
| JsDate.DaysBeforeYearEnd | src/hooks/useChartData.tsx:23-30 | The twelve months add up to the year's length |
| JsDate.Forward | src/hooks/useChartData.tsx:23-30 | Rolling an overlong day forward gives a valid date with the ECMA day number |
| JsDate.DayBefore | src/hooks/useChartData.tsx:23-30 | Day 0 of a month is a valid date, the last day of the month before |
| JsDate.LocalDateOf | src/hooks/useChartData.tsx:23-30 | The Date built from any parts is a valid calendar date |
| JsDate.LocalDateOfDayNumber | src/hooks/useChartData.tsx:23-30 | That date's day number is ECMA `MakeDay` of the parts plus the whole days in the time |
| JsDate.LocalDateOfInRange | src/hooks/useChartData.tsx:23-31 | Parts naming a real date and a time within the day give exactly that date |
| JsDate.DayFromYearMonotone | src/hooks/useChartData.tsx:23-30 | Later years start on later days |
| JsDate.DayNumberInYear | src/hooks/useChartData.tsx:23-31 | A valid date's day number lies within its year |
| JsDate.SameYear | src/hooks/useChartData.tsx:31 | Two valid dates with the same day number are in the same year |
| JsDate.SameMonth | src/hooks/useChartData.tsx:31 | Two valid dates of one year with the same day number are in the same month |
| JsDate.DayNumberInjective | src/hooks/useChartData.tsx:31 | Two valid dates with the same day number are equal |
| JsDate.Anchors | src/components/Main/Main.tsx:124-125 | 1 January 1970 is day 0, a Thursday; 16 March 2025 is a Sunday |
| Timestamp.ToNumber | src/hooks/useChartData.tsx:20-21 | `Number` of a component is defined exactly on digit strings, and "" gives 0 |
| Timestamp.Component | src/hooks/useChartData.tsx:20-21 | A component missing from the destructured pieces is NaN |
| Timestamp.DateOf | src/hooks/useChartData.tsx:23-30 | The date built from numeric parts is valid |
| Timestamp.ConstructDate | src/hooks/useChartData.tsx:20-30 | The Date is valid exactly when all six parts are numbers; it has year `MakeFullYear(year)`, month `month - 1` and the day |
| Timestamp.ConstructSome | src/hooks/useChartData.tsx:23-30 | Six numeric parts give those Date arguments, the time folded into seconds |
| Timestamp.MissingTimePartIff | src/hooks/useChartData.tsx:19-21 | The missing-time-part TypeError happens exactly when the date lacks ", " |
| Timestamp.ParseFormatPieces | src/hooks/useChartData.tsx:19-30 | A timestamp built from digit pieces parses into those pieces' numbers |
| Timestamp.PaddedNumber | src/hooks/useChartData.tsx:20-21 | `Number` of a zero-padded number is the number |
| Timestamp.ParseDisplay | src/store/Dashboard.ts:147 | A `ru-RU` display timestamp parses back to its own parts |
| Timestamp.ParseDisplayValid | src/store/Dashboard.ts:147 | A display timestamp of a real date and time parses to exactly that calendar date |
| ChartDataHook.MonthSlot | src/hooks/useChartData.tsx:17-35 | A counted record names a slot within 0..11 |
| ChartDataHook.MonthOfBounded | src/hooks/useChartData.tsx:33 | Every slot a record can name passes the 0..11 guard |
| ChartDataHook.MonthlySums | src/hooks/useChartData.tsx:10-43 | The monthly series has exactly 12 slots |
| ChartDataHook.SkippedIff | src/hooks/useChartData.tsx:17-38 | A record is skipped exactly when its date is empty, lacks ", ", or has a non-numeric part |
| ChartDataHook.DisplayedSlot | src/hooks/useChartData.tsx:19-35 | A display timestamp of a real date in month MM counts in slot MM-1 |
| ChartDataHook.DepositInto | src/hooks/useChartData.tsx:33-35 | A well-dated record adds its price to its month's slot only, after the earlier records |
| ChartDataHook.MonthlyIncomes | src/hooks/useChartData.tsx:9-43 | The forEach loop computes the monthly sums; an empty history gives twelve zeros |
| ChartDataHook.ChartData | src/hooks/useChartData.tsx:45-54 | One chart entry per month label |
| ChartDataHook.CountFlagged | src/hooks/useChartData.tsx:47-52 | Entries flagged exactly at index c have one flagged entry when c is an index, none otherwise |
| ChartDataHook.OneCurrent | src/hooks/useChartData.tsx:47-52 | `isCurrent` holds for exactly one entry when the current month is 0..11 |
| ChartDataHook.UseChartData | src/hooks/useChartData.tsx:8-57 | 12 entries; entry m carries label m, the total of the records dated in month m, and whether m is the current month |
| DashboardView.InlineStep | src/components/Main/Main.tsx:70-78 | A non-throwing record of the inline loop names a slot within 0..11 |
| DashboardView.InlineStepBounded | src/components/Main/Main.tsx:76-78 | Every slot the inline loop can name is within 0..11 |
| DashboardView.InlineMonthlySums | src/components/Main/Main.tsx:66-81 | An inline series that is computed has 12 slots |
| DashboardView.InlineMonthlyIncomes | src/components/Main/Main.tsx:66-81 | The inline loop computes the inline monthly sums, or the failure |
| DashboardView.InlineThrowsIff | src/components/Main/Main.tsx:70-73 | A record throws exactly when its date is non-empty and lacks ", " |
| DashboardView.InlineAgreesWithHook | src/components/Main/Main.tsx:70-78 | A record that does not throw names the same slot as in the hook |
| DashboardView.InlineCrashIff | src/components/Main/Main.tsx:68-81 | The page's series fails exactly when some record has a non-empty date without ", " |
| DashboardView.InlineMatchesHook | src/components/Main/Main.tsx:68-81 | Without such a record, the page's series equals the hook's |
| DashboardView.InlineCrashExample | src/components/Main/Main.tsx:68-81 | A single record dated "15.03.2025" makes the page fail, while the hook gives twelve zeros |
| DashboardView.NoCommaSpace | src/components/Main/Main.tsx:71 | A date without a comma has no ", " |
| DashboardView.PageChartData | src/components/Main/Main.tsx:84-90 | Built from the hook's `MonthlySums`, which equal the page's own monthly loop whenever the page renders (`InlineMatchesHook`): 12 entries; entry m carries label m, the total of month m, and whether m is the current month |
| DashboardView.WeekdaySlot | src/components/Main/Main.tsx:113-133 | A counted expense names a weekday within 0..6 |
| DashboardView.WeekdayOfBounded | src/components/Main/Main.tsx:125-127 | Every weekday an expense can name is within 0..6 |
| DashboardView.DailyExpenses | src/components/Main/Main.tsx:112-139 | One point per weekday label, carrying that label and the total price of the expenses dated on that weekday |
| DashboardView.Values | src/components/Main/Main.tsx:138 | One value per point |
| DashboardView.ExpenseCountsOnItsWeekday | src/components/Main/Main.tsx:125-129 | An expense dated on weekday w adds its price to the value at index w and to no other |
| DashboardView.WeekSumConserved | src/components/Main/Main.tsx:112-139 | The seven values add up to the total price of the expenses with a valid date |
| DashboardView.MalformedExpenseNeutral | src/components/Main/Main.tsx:114-133 | An expense with an empty or malformed date changes no value and does not stop the fold |
| DashboardView.WeekdaySkippedIff | src/components/Main/Main.tsx:114-133 | An expense is passed over exactly when its date is empty, lacks ", ", or has a non-numeric part |
| DashboardView.DisplayedWeekday | src/components/Main/Main.tsx:118-125 | A display timestamp of a real date counts on that date's weekday, Sunday = 0 |
| DashboardView.TransformedData | src/components/Main/Main.tsx:60-63 | One slice per expense, with its price and category |
| DashboardView.TransformedConcat | src/components/Main/Main.tsx:60-63 | The slices keep the expenses' order |
| DashboardStore.ErrorMessage | src/store/Dashboard.ts:153-155 | The stored error is the backend's message when non-empty, else "Unknown error occurred"; never empty |
| DashboardStore.Initialized | src/store/Dashboard.ts:76-157 | Initialisation always ends not loading |
| DashboardStore.InitializeFailureKeepsData | src/store/Dashboard.ts:77-156 | Without a user or on a backend error, only a non-empty error and `isLoading` change; no user gives "User not authenticated" |
| DashboardStore.InitializeSuccess | src/store/Dashboard.ts:120-150 | A successful load clears the error and loading flag; each total is the profile's value or 0 when the profile or the value is missing, the balance carries the profile's balance date, and each list is the returned rows or [] when none came back |
| DashboardStore.UnauthenticatedChangesOnlyError | src/store/Dashboard.ts:159-273 | Without a user, each add sets "User not authenticated" and changes nothing else, for every price, category, date, goal and outcome |
| DashboardStore.FailureChangesOnlyError | src/store/Dashboard.ts:195-300 | A backend error in any add sets only the error, to its message or the fallback, for every other argument |
| DashboardStore.BalanceAddedSuccess | src/store/Dashboard.ts:183-194 | A successful add sets the balance to the old one plus the price, dated with the display date, raises the total profit by the price and appends the entry (new id, price, display date); goals, expenses, the expense total, the loading flag and the error are kept |
| DashboardStore.ClampedBalance | src/store/Dashboard.ts:230 | The balance after an expense is never negative: the old balance minus the price, or 0 |
| DashboardStore.CreditGoal | src/store/Dashboard.ts:231-239 | Only the goals with the given id gain the price in balance; length, ids, names and prices are kept |
| DashboardStore.CreditGoalSaved | src/store/Dashboard.ts:231-239 | Total goal savings rise by the price times the number of goals with the id |
| DashboardStore.ExpenseCategoryIff | src/store/Dashboard.ts:213-217 | The category is the goal's name exactly when the category is empty, a goal id is given and a non-empty name is found; otherwise the given category |
| DashboardStore.ExpenceAddedSuccess | src/store/Dashboard.ts:229-260 | A successful expense is appended with the resolved category, raises the total expense by the price, floors the balance at 0 and dates it now, credits exactly the goals with the given id (CreditGoal) and no goal without one; profit, history, the loading flag and the error are kept |
| DashboardStore.GoalAddedSuccess | src/store/Dashboard.ts:287-295 | A successful add appends one goal with balance 0 and changes nothing else |
| DashboardStore.LedgerKept | src/store/Dashboard.ts:183-294 | Every add, whatever its outcome, keeps total profit minus the history's prices and total expense minus the expenses' prices unchanged |
| DashboardStore.Dashboard.constructor | src/store/Dashboard.ts:66-74 | The store starts with zero totals, an empty balance, empty lists, not loading and no error |
| DashboardStore.Dashboard.Initialize | src/store/Dashboard.ts:76-157 | The new state is the initialisation transition of the old one |
| DashboardStore.Dashboard.AddBalance | src/store/Dashboard.ts:159-200 | The new state is the add-balance transition of the old one |
| DashboardStore.Dashboard.AddExpence | src/store/Dashboard.ts:202-266 | The new state is the add-expense transition of the old one |
| DashboardStore.Dashboard.AddGoal | src/store/Dashboard.ts:268-301 | The new state is the add-goal transition of the old one |
| TaskStore.MaxOrder | src/store/TaskStore.ts:64-65 | The maximum is at least every order and is attained; 0 for an empty list |
| TaskStore.NextOrder | src/store/TaskStore.ts:64-69 | The new order is above every existing order, and 1 on an empty list |
| TaskStore.Added | src/store/TaskStore.ts:69 | The added row's order is above every existing order |
| TaskStore.Fetched | src/store/TaskStore.ts:36-54 | No user or an error keeps the list; otherwise it becomes the rows, or [] when null |
| TaskStore.ReplaceById | src/store/TaskStore.ts:102-104 | Only the rows with the id are replaced; length and positions are kept |
| TaskStore.RemoveById | src/store/TaskStore.ts:125 | Filtering never lengthens the list |
| TaskStore.RemoveCounts | src/store/TaskStore.ts:124-126 | The rows with the id are all removed and every other row keeps its count |
| TaskStore.RemoveConcat | src/store/TaskStore.ts:124-126 | The filter works piecewise, so the kept rows stay in their relative order |
| TaskStore.RemoveKeepsSorted | src/store/TaskStore.ts:124-126 | Deleting from a sorted list leaves it sorted |
| TaskStore.Insert | src/store/TaskStore.ts:79 | Inserting one row lengthens the list by one |
| TaskStore.InsertPermutes | src/store/TaskStore.ts:79 | Insertion adds exactly the one row |
| TaskStore.InsertSorted | src/store/TaskStore.ts:79 | Inserting into a sorted list keeps it sorted |
| TaskStore.InsertLast | src/store/TaskStore.ts:79 | A row whose order is at least every other order goes last |
| TaskStore.InsertStable | src/store/TaskStore.ts:79 | Insertion puts the row after the rows with an equal order |
| TaskStore.SortByOrder | src/store/TaskStore.ts:78-80 | Sorting keeps the length |
| TaskStore.SortPermutes | src/store/TaskStore.ts:78-80 | Sorting is a permutation |
| TaskStore.SortSorted | src/store/TaskStore.ts:78-80 | The sorted list is ascending by order |
| TaskStore.SortStable | src/store/TaskStore.ts:78-80 | Rows with equal orders keep their relative order (stable sort) |
| TaskStore.SortOfSorted | src/store/TaskStore.ts:79 | Sorting a sorted list changes nothing |
| TaskStore.ErrorKeepsTasks | src/store/TaskStore.ts:73-146 | A backend error in add, edit, delete or drag keeps the list |
| TaskStore.AddTaskSuccess | src/store/TaskStore.ts:63-80 | A successful add gives a sorted list one longer, holding the old rows and the new one; on a sorted list the new row goes last |
| TaskStore.DragTaskSuccess | src/store/TaskStore.ts:148-152 | A successful drag keeps the length, leaves the list sorted, and permutes the list with the row replaced |
| TaskStore.DeleteKeepsSorted | src/store/TaskStore.ts:124-126 | A delete keeps a sorted list sorted |
| TaskStore.TaskList.constructor | src/store/TaskStore.ts:29-30 | The store starts with no tasks |
| TaskStore.TaskList.FetchTasks | src/store/TaskStore.ts:35-55 | The list becomes the fetched rows as above |
| TaskStore.TaskList.AddTask | src/store/TaskStore.ts:60-81 | The list becomes the add transition of the old list |
| TaskStore.TaskList.EditTask | src/store/TaskStore.ts:86-105 | The list becomes the edit transition of the old list |
| TaskStore.TaskList.DeleteTask | src/store/TaskStore.ts:110-127 | The list becomes the delete transition of the old list |
| TaskStore.TaskList.DragTask | src/store/TaskStore.ts:132-153 | The list becomes the drag transition of the old list |
| TaskStatus.StatusOfKey | src/helpers/task-status.ts:1-10 | Looking a key up finds the status with that key, the only one |
| TaskStatus.KeyInjective | src/helpers/task-status.ts:1-10 | Distinct statuses have distinct keys |
| TaskStatus.Describe | src/helpers/task-status.ts:14-25 | One option per config entry, with the key, the label and the dot colour |
| TaskStatus.StatusOptionsInOrder | src/helpers/task-status.ts:1-25 | Four status options: todo, in_progress, done, blocked |
| TaskStatus.FilterOptionsShape | src/helpers/task-status.ts:12-19 | Five filter options: "all"/"All Tasks" first, then the status options |
| TaskStatus.OptionsFollowConfig | src/helpers/task-status.ts:14-25 | Each option's value, label and colour come from the config entry |
| TaskStatus.OptionValuesDistinct | src/helpers/task-status.ts:1-19 | All filter option values are distinct, and every status option value names a status |
| TaskBoard.FilteredTasks | src/components/Tasks/Main.tsx:91-109 | A task is shown exactly when it is on the board and passes all four predicates |
| TaskBoard.FilterConcat | src/components/Tasks/Main.tsx:91-109 | The filter works piecewise, so it keeps the board's order |
| TaskBoard.FilterOne | src/components/Tasks/Main.tsx:107 | One task is kept exactly when it matches |
| TaskBoard.DefaultFiltersShowAll | src/components/Tasks/Main.tsx:93-105 | An empty search and the three "all" filters show every task |
| TaskBoard.NextStatus | src/components/Tasks/Main.tsx:183-184 | The next status is one of the three statuses |
| TaskBoard.StatusCycle | src/components/Tasks/Main.tsx:183-184 | Toggling always changes the status, and three toggles restore a valid one |
| TaskBoard.StatusToggled | src/components/Tasks/Main.tsx:180-193 | Only tasks with the id change, in their status only; the length is kept; an open detail view on that id shows the last toggled task with it, any other selection is kept, and an absent id changes nothing |
| TaskBoard.ThreeTogglesRestore | src/components/Tasks/Main.tsx:180-193 | Three toggles of one id restore the board's tasks |
| TaskBoard.LastWithId | src/components/Tasks/Main.tsx:186-188 | Some exactly when a task with the id exists, and then the last such task, the one the final `setSelectedTask` call leaves |
| TaskBoard.FindIndex | src/components/Tasks/Main.tsx:210-211 | `findIndex` gives the first index with the id, or -1 when there is none |
| TaskBoard.Splice | src/components/Tasks/Main.tsx:214-215 | `splice` clamps its start and count as JavaScript does and puts the items in place of the removed range |
| TaskBoard.DropNoOp | src/components/Tasks/Main.tsx:208 | Without a dragged task, or dropped on itself, a drop changes nothing |
| TaskBoard.DropIsMove | src/components/Tasks/Main.tsx:210-217 | A drop is a permutation that puts the dragged task at the target's index and keeps the other tasks in order |
| TaskBoard.MoveAt | src/components/Tasks/Main.tsx:213-215 | Removing at one index and inserting at another keeps the length and the rest in order, and is a permutation |
| TaskBoard.ModalClosed | src/components/Tasks/Main.tsx:111-139 | Closing the modal resets the form to priority "Средний" and status "Не начато" and closes it; tasks are kept |
| TaskBoard.ModalOpened | src/components/Tasks/Main.tsx:124-133 | Opening the modal shows the task's fields, or the empty form |
| TaskBoard.WithEdited | src/components/Tasks/Main.tsx:156-158 | Only the edited id is replaced, keeping that id; the length is kept |
| TaskBoard.BlankSubmitNoOp | src/components/Tasks/Main.tsx:153 | A blank or whitespace-only name submits nothing |
| TaskBoard.SubmitEffect | src/components/Tasks/Main.tsx:155-170 | Editing replaces only the edited id; adding appends one task; either way the modal closes and the form resets |
| TaskBoard.WithoutIdCounts | src/components/Tasks/Main.tsx:174 | Every task with the id is removed and the others keep their counts |
| TaskBoard.TaskDeleted | src/components/Tasks/Main.tsx:173-178 | The tasks with the id are gone; a selected deleted task closes the detail view; otherwise only the list changes |
| TaskBoard.Board.Shown | src/components/Tasks/Main.tsx:91-109 | With the default filters the shown list is the whole board |
| TaskBoard.Board.constructor | src/components/Tasks/Main.tsx:40-63 | The board starts closed, with nothing selected or dragged, the empty form and the default filters |
| TaskBoard.Board.ResetForm | src/components/Tasks/Main.tsx:111-122 | Only the form changes, to the empty form |
| TaskBoard.Board.OpenModal | src/components/Tasks/Main.tsx:124-133 | The state becomes the opened-modal state |
| TaskBoard.Board.CloseModal | src/components/Tasks/Main.tsx:135-139 | The state becomes the closed-modal state |
| TaskBoard.Board.OpenTaskDetail | src/components/Tasks/Main.tsx:141-144 | The task is selected and the detail view opens |
| TaskBoard.Board.CloseTaskDetail | src/components/Tasks/Main.tsx:146-150 | The detail view closes and the selection is cleared |
| TaskBoard.Board.HandleSubmit | src/components/Tasks/Main.tsx:152-171 | The state becomes the submitted state |
| TaskBoard.Board.DeleteTask | src/components/Tasks/Main.tsx:173-178 | The state becomes the deleted state |
| TaskBoard.Board.ToggleTaskStatus | src/components/Tasks/Main.tsx:180-193 | The state becomes the toggled state |
| TaskBoard.Board.HandleDragStart | src/components/Tasks/Main.tsx:195-198 | Only the dragged task changes |
| TaskBoard.Board.HandleDrop | src/components/Tasks/Main.tsx:205-219 | The state becomes the dropped state, with the dragged task cleared |
| TaskBoard.Board.SetFilters | src/components/Tasks/Main.tsx:48-51 | Only the filters change |
| Calendar.DateAt | src/ui/calendar.tsx:117 | `new Date(year, month, day)` is a valid calendar date |
| Calendar.GetDaysInMonth | src/ui/calendar.tsx:103-105 | A month has at least one day |
| Calendar.DaysInMonthIsLength | src/ui/calendar.tsx:103-105 | Day 0 of the next month gives the month's Gregorian length, 29 for February exactly in leap years |
| Calendar.GetFirstDayOfMonth | src/ui/calendar.tsx:107-110 | The offset is 0..6, Sunday moved to 6 and the other days down by one |
| Calendar.FirstDayIsMondayBased | src/ui/calendar.tsx:107-110 | The offset counts from Monday, matching the Пн..Вс header |
| Calendar.MonthNavigated | src/ui/calendar.tsx:135-151 | The month stays within 0..11; only month and year change |
| Calendar.NavigateMonthSteps | src/ui/calendar.tsx:135-151 | "next" is one month later and "prev" one month earlier, so each undoes the other |
| Calendar.YearsNavigated | src/ui/calendar.tsx:261-267 | The year moves by 12 only when the result stays in 1900..2040; only the year changes |
| Calendar.YearsStayInRange | src/ui/calendar.tsx:261-267 | A year in 1900..2040 stays there |
| Calendar.ClicksSwitchView | src/ui/calendar.tsx:125-133 | A year click sets the year and shows months; a month click sets the month and shows days |
| Calendar.FormatOutput | src/ui/calendar.tsx:64-70 | The value keeps its kind: null stays null, a string becomes the date's text, a Date becomes the date |
| Calendar.DateClickEffect | src/ui/calendar.tsx:112-123 | A disabled day changes nothing; an enabled one sets the value and closes the picker, and nothing else changes |
| Calendar.ClickedDateInMonth | src/ui/calendar.tsx:117 | A day within the month is that very date |
| Calendar.EmptyPickerStaysEmpty | src/ui/calendar.tsx:64-123 | With a null value, a click leaves the value null |
| Calendar.FormatOutputFixed | src/ui/calendar.tsx:64-70 | The value is never null and follows the `format` prop when there is no value yet |
| Calendar.FixedClickSetsValue | src/ui/calendar.tsx:64-123 | An enabled click always sets a non-null value, and agrees with the code whenever a value exists |
| Calendar.Picker.constructor | src/ui/calendar.tsx:28-31 | The picker starts closed, in the days view, at the given month and year |
| Calendar.Picker.NavigateMonth | src/ui/calendar.tsx:135-151 | The state becomes the navigated state |
| Calendar.Picker.NavigateYears | src/ui/calendar.tsx:261-267 | The state becomes the navigated state |
| Calendar.Picker.HandleMonthClick | src/ui/calendar.tsx:125-128 | The state becomes the month-clicked state |
| Calendar.Picker.HandleYearClick | src/ui/calendar.tsx:130-133 | The state becomes the year-clicked state |
| Calendar.Picker.HandleDateClick | src/ui/calendar.tsx:116-123 | The state becomes the date-clicked state |
| Calendar.Picker.RenderDays | src/ui/calendar.tsx:153-201 | First-weekday blank cells, then exactly one cell per day of the month, cell i showing day i - firstDay + 1 |
| Calendar.Picker.RenderYears | src/ui/calendar.tsx:223-259 | The years from floor(year/12)*12 on, at most 12, kept to 1900..2040, in order |
| Calendar.DayGrid | src/ui/calendar.tsx:156-198 | The two loops push the blanks and then the numbered cells |
| Calendar.YearPage | src/ui/calendar.tsx:224-256 | The loop pushes the years of the page inside 1900..2040, in order |
| GalleryViewer.NextShown | src/components/Gallery/Items/Main.tsx:197-202 | Nothing happens on an empty list; otherwise the index stays in range and the shown image is the one at it |
| GalleryViewer.PrevShown | src/components/Gallery/Items/Main.tsx:204-209 | Nothing happens on an empty list; otherwise the index stays in range and the shown image is the one at it |
| GalleryViewer.NextPrevInverse | src/components/Gallery/Items/Main.tsx:197-209 | prev after next, and next after prev, restore the viewer |
| GalleryViewer.NextTimesIndex | src/components/Gallery/Items/Main.tsx:197-202 | k steps forward move the index k places around the circle |
| GalleryViewer.FullCircle | src/components/Gallery/Items/Main.tsx:197-202 | As many steps as there are images return to the start |
| GalleryViewer.ViewerClosed | src/components/Gallery/Items/Main.tsx:192-195 | Closing clears the selection and resets the index to 0 |
| GalleryViewer.KeysNeedSelection | src/components/Gallery/Items/Main.tsx:212-217 | Keys act only while an image is selected; Escape closes; other keys do nothing |
| GalleryViewer.ProgressBounds | src/components/Gallery/Items/Main.tsx:100-123 | The progress never decreases, stays at most 100, starts at 0 and reaches 100 at the last file |
| GalleryViewer.Processed | src/components/Gallery/Items/Main.tsx:97-124 | The loop gets through every file up to the first image whose upload fails |
| GalleryViewer.ImagesBefore | src/components/Gallery/Items/Main.tsx:98-108 | Exactly the image files among those passed are uploaded |
| GalleryViewer.UploadLoop | src/components/Gallery/Items/Main.tsx:94-124 | Each file passed sets the progress for its count; only images are uploaded; the loop fails exactly at a failed upload |
| GalleryViewer.UploadProgressShape | src/components/Gallery/Items/Main.tsx:100-123 | The progress values set by the loop rise, stay at most 100, and end at 100 when every file went through |
| GalleryViewer.FilesManager.constructor | src/components/Gallery/Items/Main.tsx:46-52 | The page starts with no folder, no files, nothing selected and no upload |
| GalleryViewer.FilesManager.NextImage | src/components/Gallery/Items/Main.tsx:197-202 | The viewer steps forward; nothing else changes |
| GalleryViewer.FilesManager.PrevImage | src/components/Gallery/Items/Main.tsx:204-209 | The viewer steps back; nothing else changes |
| GalleryViewer.FilesManager.OpenImageViewer | src/components/Gallery/Items/Main.tsx:187-190 | The file and index are selected; nothing else changes |
| GalleryViewer.FilesManager.CloseImageViewer | src/components/Gallery/Items/Main.tsx:192-195 | The viewer closes; nothing else changes |
| GalleryViewer.FilesManager.HandleKeyPress | src/components/Gallery/Items/Main.tsx:212-217 | The key dispatch acts on the viewer only |
| GalleryViewer.FilesManager.FetchFiles | src/components/Gallery/Items/Main.tsx:71-86 | With an id, the files become the rows, [] when null or on an error |
| GalleryViewer.FilesManager.FetchFolder | src/components/Gallery/Items/Main.tsx:56-69 | With an id and no error, the folder becomes the returned row |
| GalleryViewer.FilesManager.UploadFiles | src/components/Gallery/Items/Main.tsx:88-134 | No folder or no files does nothing; otherwise the loop runs and `finally` leaves the page not uploading, at progress 0 |
| GalleryFolders.SplitLastSegment | src/components/Gallery/Main.tsx:102 | The last piece of `split(".")` is the text after the last dot |
| GalleryFolders.NoDotFound | src/components/Gallery/Main.tsx:102 | Without a dot, the last segment is the whole name |
| GalleryFolders.SegmentAfterDot | src/components/Gallery/Main.tsx:102 | The last segment after a dot is the last segment of the whole name |
| GalleryFolders.LastSegmentUnique | src/components/Gallery/Main.tsx:102 | A name has one last segment |
| GalleryFolders.GetFileExtension | src/components/Gallery/Main.tsx:100-103 | The badge is undefined exactly for an empty name |
| GalleryFolders.FileExtensionIs | src/components/Gallery/Main.tsx:100-103 | The badge is the upper-cased text after the last dot, or "FILE" when that is empty |
| GalleryFolders.FileExtensionNoDot | src/components/Gallery/Main.tsx:102 | A name without a dot is its own upper-cased badge |
| GalleryFolders.FileExtensionTrailingDot | src/components/Gallery/Main.tsx:102 | A name ending in "." has the badge "FILE" |
| GalleryFolders.Renamed | src/components/Gallery/Main.tsx:68-73 | Only the folders with the id are renamed; length and order are kept |
| GalleryFolders.WithoutFolderCounts | src/components/Gallery/Main.tsx:87 | The folders with the id are all removed and the others keep their counts |
| GalleryFolders.WithoutFolderConcat | src/components/Gallery/Main.tsx:87 | The filter works piecewise, so the kept folders stay in order |
| GalleryFolders.EditToggled | src/components/Gallery/Main.tsx:150-152 | The edit button clears the editing id exactly when it was this folder's, and otherwise sets it to this folder |
| GalleryFolders.EditToggleTwice | src/components/Gallery/Main.tsx:150-152 | Two clicks on the same folder's button start and then stop editing it |
| GalleryFolders.FolderList.constructor | src/components/Gallery/Main.tsx:19-23 | The page starts with no folders, not loading and nothing edited |
| GalleryFolders.FolderList.FetchFiles | src/components/Gallery/Main.tsx:25-37 | No user changes nothing; an error keeps the list; success gives the rows, or [] when null |
| GalleryFolders.FolderList.AddNewFile | src/components/Gallery/Main.tsx:40-54 | Success appends one folder named "New Folder"; an error keeps the list |
| GalleryFolders.FolderList.HandleChange | src/components/Gallery/Main.tsx:68-75 | The list is renamed at the id, nothing else changes |
| GalleryFolders.FolderList.DeleteFile | src/components/Gallery/Main.tsx:78-89 | Success removes the folders with the id; an error keeps the list |
| GalleryFolders.FolderList.ClickEdit | src/components/Gallery/Main.tsx:150-152 | The editing id toggles |
| GalleryFolders.FolderList.ClickName | src/components/Gallery/Main.tsx:178-180 | Clicking a name starts editing it |
| GalleryFolders.FolderList.FieldKey | src/components/Gallery/Main.tsx:173-174 | Blur or Enter clears the editing id; other keys keep it |
| ProfileSync.NewProfile | src/lib/checkerAuth.tsx:57-68 | The insert profile keeps the user id and never has an empty name |
| ProfileSync.UpdatedProfile | src/lib/checkerAuth.tsx:84-111 | The update profile keeps the user id and never has an empty name |
| ProfileSync.MetadataFirst | src/lib/checkerAuth.tsx:84-100 | Metadata values take precedence over stored ones, field by field; full metadata makes the update equal the insert profile |
| ProfileSync.Fallbacks | src/lib/checkerAuth.tsx:59-99 | Empty metadata falls back to "User", null, "" and now, or to the stored values |
| ProfileSync.PlanChoice | src/lib/checkerAuth.tsx:52-83 | A fetch error other than "PGRST116" aborts; otherwise a missing profile is inserted and an existing one updated |
| ProfileSync.SetUserWith | src/lib/checkerAuth.tsx:77-112 | `setUser` is called exactly when the plan writes and the write succeeds, with that plan's profile |
| ProfileSync.WrittenProfileShape | src/lib/checkerAuth.tsx:57-111 | The profile written carries the session user's id and a non-empty name |
| ProfileSync.SessionEffect | src/lib/checkerAuth.tsx:12-41 | A session error does nothing; no session removes the three cookies; a session stores the token and syncs the profile |
| AmountField.ParseAmount | src/components/Modals/Dashboard/IncomeModal.tsx:47-49 | Input is accepted exactly when it is all ASCII digits; "" gives 0; digits give their decimal value |
| AmountField.ParseDecimal | src/components/Modals/Dashboard/IncomeModal.tsx:49 | The decimal text of n is accepted as n |
| AmountField.LeadingZerosIgnored | src/components/Modals/Dashboard/IncomeModal.tsx:49 | Leading zeros do not change the amount |
| IncomeModal.PriceTyped | src/components/Modals/Dashboard/IncomeModal.tsx:46-50 | Rejected input changes nothing; accepted input sets the price only |
| IncomeModal.DateTyped | src/components/Modals/Dashboard/IncomeModal.tsx:58 | The date handler sets the date and keeps the price |
| IncomeModal.HandlersCommute | src/components/Modals/Dashboard/IncomeModal.tsx:46-58 | The two handlers touch separate fields, so their order does not matter |
| IncomeModal.PriceTypedIdempotent | src/components/Modals/Dashboard/IncomeModal.tsx:49 | Typing the same input twice is the same as once; "" sets the price to 0 |
| ExpenceModal.GoalOptions | src/components/Modals/Dashboard/ExpenceModal.tsx:76 | One option per goal, in order, with value = id and label = name |
| ExpenceModal.PriceTyped | src/components/Modals/Dashboard/ExpenceModal.tsx:50-58 | Rejected input leaves the whole form unchanged; accepted input sets the price only |
| ExpenceModal.CategoryTyped | src/components/Modals/Dashboard/ExpenceModal.tsx:66-70 | Only the category changes |
| ExpenceModal.GoalSelected | src/components/Modals/Dashboard/ExpenceModal.tsx:77-82 | Only the goal id changes, to the selected value or "" when cleared |
| ExpenceModal.DateTyped | src/components/Modals/Dashboard/ExpenceModal.tsx:88-92 | Only the date changes |
| ExpenceModal.SelectingGoalOption | src/components/Modals/Dashboard/ExpenceModal.tsx:76-82 | Selecting the option of goal i stores goal i's id |
| ExpenceModal.PriceTypedOutcomes | src/components/Modals/Dashboard/ExpenceModal.tsx:51-56 | Non-digit input is rejected; the decimal text of n sets the price to n |

## Left out

- Backend calls (database and storage reads and writes, session fetch) are not modelled; each call is an input outcome (`Ok` with the returned row, or `Err`).
- Cookie writes, token storage and the order of the awaited calls in `checkSession` are not modelled; `SessionEffect` names the effect to perform.
- Timers and asynchrony are not modelled: the debounced rename write in `src/components/Gallery/Main.tsx:56-66` is left out (the local rename in `handleChange` is modelled), and so is the autosaving editor in `src/components/Tasks/current/test.tsx`.
- Markup-only components and UI widget state are left out: `CurrentTask.tsx`, `ConfirmDelete.tsx`, `Navigation.tsx`, `layout.tsx`, `Input.tsx`, `Select.tsx`, `CustomBar.tsx` geometry, `Navigations.tsx` and `wdyr.js`. So are the calendar's `renderMonths` button list (its click handler is modelled) and the gallery's delete-confirmation dialog.
- `GoalModal.tsx` is left out: its `Number()` is unvalidated and can produce NaN, which is outside the integer model.
- Locale output is an input: `toLocaleString("ru-RU")`, `toLocaleDateString("en-CA")` and `toISOString` results are given as strings or as a function from dates to text. The calendar's `parseDate`, the `useEffect` that syncs month and year to the value, and the click-outside listener are not modelled.
- DashboardStore.BalanceAdded: `new Date(date).toISOString()` in `addBalance` (src/store/Dashboard.ts:166-168) runs before the `try`, so a date that does not parse throws a RangeError out of the action with no state change and no error set; the model has no such outcome. Its one caller (src/components/Main/Main.tsx:94) passes the value of the `<input type="date">` in src/components/Modals/Dashboard/IncomeModal.tsx:55-58, which is only "" or a "YYYY-MM-DD" date, and both parse.
- The clock (`new Date()`, `Date.now()`) and `nanoid` ids are parameters.
- The deadline predicates of the task filter (`isDeadlineNear`, the overdue test) are parameters, because they use millisecond float arithmetic and the clock.
- The heatmap intensity and goal percentage divisions of the dashboard page are left out (floating point).
- Amounts and prices are unbounded integers: values beyond 2^53, where JavaScript numbers lose precision, are not modelled. Task `order` is a real number; NaN and float rounding are not modelled.
- `Number()` is modelled only on "" and ASCII digit strings; anything else (spaces, signs, "1e1", hex) is NaN. `TimeClip` and daylight-saving gaps of `new Date` are not modelled: timestamps name local calendar dates.
- `MONTHS` is taken from `src/Constants/Dashboard.ts`. `WEEK_DAYS` is an input label sequence, because it is imported from a module that does not export it.
- `dragTask` stores the order given by its caller, inside the returned row; the model takes it as an input.
- In `src/store/TaskStore.ts`, `addTask`, `editTask`, `deleteTask` and `dragTask` read `user.user_id` without a guard; a missing user (a TypeError) is modelled as the backend error outcome.
- TaskBoard.Board.HandleDrop: when the dragged or target task is not in the list, `findIndex` gives -1 and the splices run with JavaScript's negative-index rules; `Splice` models those rules, but `DropIsMove` states the move only for tasks present in the list.
- GalleryViewer.ProgressBounds: progress is `Math.round(count / total * 100)`, taken as exact rational rounding half up; float rounding of the quotient is not modelled.
- GalleryViewer.FilesManager.UploadFiles: the refetch of files and folder after a complete upload is left to the caller (`completed` says when): it is the separate `FetchFiles` and `FetchFolder` operations with their own backend outcomes.
- Calendar.Picker.RenderDays and Calendar.Picker.RenderYears: the button markup is a cell datatype (`selected`, `today`, `disabled` flags and the number); classes and handlers are not modelled.
- Calendar.FormatOutputFixed: the `"iso"` output format of the `format` prop is not modelled.
- Text.ToUpper / Text.ToLower: only the ASCII, Latin-1 (U+00C0 to U+00FE) and basic Cyrillic (U+0400 to U+045F) letters are case-mapped; every other letter is kept as it is, and mappings that change the length (such as 'ß' to "SS") or depend on context are not modelled, so both are stated to keep the length.
- The picker's `HandleDateClick` models `handleDateClick` as written, with the finding below; `DateClickedFixed` is the corrected handler.

## Findings

| source | as written | input that shows it | evidently intended | confidence | as-written member | corrected member |
|---|---|---|---|---|---|---|
| src/components/Main/Main.tsx:68-81 | The page's own monthly loop has no `try`: a non-empty date without ", " leaves `timePart` undefined, and `timePart.split` throws out of the render | a balance history holding one entry with price 100 and date "15.03.2025" | skip the record, as the hook `useChartData` does (src/hooks/useChartData.tsx:18-38), giving twelve zeros | not executed; the store formats dates with `toLocaleString("ru-RU")`, which includes ", ", so the input needs a date not written by the store | DashboardView.InlineCrashExample | ChartDataHook.MonthlyIncomes |
| src/ui/calendar.tsx:64-70 | `formatOutput` returns `null` whenever the current value is `null`, so clicking a day on an empty picker stores `null` and closes it | a picker whose value is `null`, clicking any day inside [minDate, maxDate] | produce the date in the form the `format` prop (lines 15, 26) asks for | not executed; src/components/Tasks/current/test.tsx passes "" rather than `null` | Calendar.EmptyPickerStaysEmpty | Calendar.FixedClickSetsValue |
