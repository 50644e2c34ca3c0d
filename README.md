# Task tracker front end: a Dafny model

This project models the browser client of a small task tracker written in React.
The client has these parts:

- a create form and an edit dialog for tasks, which share their validation rules;
- a page that lists the tasks, forwards filters and a sort key to the server, and
  updates, deletes and edits tasks;
- a dashboard that counts tasks by status, priority and lateness;
- a task card with a due-date label and a status toggle;
- sign-in and sign-up forms;
- the API client, which builds the list query and attaches the bearer token. Its
  response interceptor forgets the credentials on a 401.

The modules follow the source files:

- `TaskForm` (the create form);
- `EditTaskModal`;
- `TaskItem` (the card);
- `TaskManager` (the list page);
- `Dashboard`;
- `Login` and `Register`;
- `Api`.

These modules share five helper modules:

- `Tasks` holds the task record, the update patch and the list transformations
  the handlers apply.
- `JsStrings` holds JavaScript's `trim`, UTF-16 `length`, `split` and the
  unanchored e-mail pattern.
- `JsObjects` is an insertion-ordered object, as `Object.entries` sees it when no
  key is integer-like.
- `FormErrors` is the `errors` dictionary the forms keep.
- `Wrappers` holds `Option` and the `x || default` idiom.

Each component's state is a class whose fields are its `useState` hooks, and each
handler is a method that makes one atomic state update. The model leaves out the
network and the clock:

- a server reply is an input: `Reply` says whether the call threw, and otherwise
  gives the server's `success` flag;
- a list body is a `Body` value, or `None` when the request threw;
- the current day or instant is a parameter (`today` is a day number, `now` is
  milliseconds);
- form encoding is a function parameter `enc`.

Every method is proved against specification functions:

- `TaskErrors`, `LoginErrors` and `RegisterErrors` give each form's errors;
- `Kept` and `Serialize` give the query string;
- `Fetched` and `DashboardList` read a list body;
- `MergeById` and `RemoveById` transform the task list;
- `CalculateStats` computes the dashboard statistics.

Lemmas then state what those functions promise: when validation passes, round
trips between a task and the edit form, the laws of the statistics, and the tag
order.

The model follows the code as written, also where the application's intended
behaviour reads differently:

- A failed list fetch empties the list, on both pages. It does not keep the old
  list.
- The dashboard's overdue count compares the due instant with the current instant.
  It does not compare whole days, which the task card does. So a task due at
  midnight today is overdue on the dashboard but "Due Today" on its card
  (`Dashboard.DueTodayCountsAsOverdue`).
- Sorting and filtering happen only on the server. The client forwards the
  parameters and keeps the order of the list it receives.
- Editing a second task while one is open replaces the first.
- On the dashboard, update and delete fetch the list again whenever the call
  returns. They do not look at `success`.
- On the dashboard, the quick-add form's draft is not sent anywhere. Submitting it
  only fetches the list again.
- The two pages read a list body differently: a bare array is the list on the task
  page and `[]` on the dashboard (`Dashboard.ListBodiesCompared`).

## Model

| member | source | states |
|---|---|---|
| Wrappers.OrDefault | src/components/Tasks/EditTaskModal.js:31-37 | `o \|\| fallback`: a present non-empty string is kept; a missing or empty string gives the fallback |
| JsStrings.TrimStart | src/components/Tasks/TaskForm.js:19 | the leading-trim result is no longer than its input |
| JsStrings.TrimStartSpec | src/components/Tasks/TaskForm.js:19 | trimming the start leaves a suffix whose first character is not white space, and every removed character is white space |
| JsStrings.TrimEnd | src/components/Tasks/TaskForm.js:19 | the trailing-trim result is no longer than its input |
| JsStrings.TrimEndSpec | src/components/Tasks/TaskForm.js:19 | trimming the end leaves a prefix whose last character is not white space, and every removed character is white space |
| JsStrings.Trim | src/components/Tasks/TaskForm.js:19 | `s.trim()` is no longer than `s`; what it removes is stated by `TrimSpec`, `TrimEmptyIffBlank` and `TrimIdempotent` |
| JsStrings.TrimSpec | src/components/Tasks/TaskForm.js:19 | `trim()` is the slice of the input between leading and trailing white space, and it has no white space at either end |
| JsStrings.TrimEmptyIffBlank | src/components/Tasks/TaskForm.js:19 | `!s.trim()` holds exactly when every character of `s` is white space |
| JsStrings.TrimIdempotent | src/components/Tasks/TaskForm.js:53 | trimming twice gives the same result as trimming once |
| JsStrings.JsLength | src/components/Tasks/TaskForm.js:21 | `length` counts UTF-16 code units, so it lies between the number of code points and twice that number |
| JsStrings.JsLengthBmp | src/components/Tasks/TaskForm.js:25 | for text within the Basic Multilingual Plane, `length` is the number of characters |
| JsStrings.Split | src/components/Tasks/TaskForm.js:53 | `split(',')` gives at least one piece, and no piece contains the separator |
| JsStrings.JoinSplit | src/components/Tasks/TaskForm.js:53 | joining the pieces of `split` with the separator gives back the input |
| JsStrings.MatchesEmailPattern | src/components/Auth/Login.js:22 | a string the pattern matches has at least five characters, an `@`, a `.` and a character that is not white space; the lemmas below state when it matches |
| JsStrings.BlankNeverMatchesEmail | src/components/Auth/Login.js:20-24 | a blank string never matches the e-mail pattern |
| JsStrings.NoAtNeverMatchesEmail | src/components/Auth/Login.js:22 | a string without `@` never matches the e-mail pattern |
| JsStrings.EmailMatchInsideText | src/components/Auth/Login.js:22 | the pattern is unanchored: `x@y.z` with non-space characters matches wherever it appears in a string |
| JsObjects.Keys | src/components/Tasks/TaskManager.js:108-113 | there is one key per property, in insertion order |
| JsObjects.Get | src/components/Tasks/TaskManager.js:108-113 | a property read finds a value exactly when the name is a key |
| JsObjects.Set | src/components/Tasks/TaskManager.js:108-113 | setting a property keeps the key order when the key exists, and appends the key otherwise |
| JsObjects.GetSet | src/components/Tasks/TaskManager.js:108-113 | after `obj[k] = v`, reading `k` gives `v`, and reading any other name gives what it gave before |
| JsObjects.GetSetAll | src/components/Tasks/TaskManager.js:108-113 | `GetSet` for every name at once |
| FormErrors.ClearError | src/components/Tasks/TaskForm.js:70-83 | a change blanks the field's error if one is shown and touches no other entry; afterwards no error is shown for that field |
| Tasks.StoredDate | src/components/Tasks/EditTaskModal.js:21-29 | a blank picker value is no date; an unparsable one is an invalid date; a day is its midnight, whose day number is that day |
| Tasks.Merge | src/components/Tasks/TaskManager.js:59 | `{...task, ...updates}` keeps the id, the tags and the creation date; `MergeFields` states each edited property and `MergeIdentityAndIdempotence` the laws of merging |
| Tasks.MergeFields | src/components/Tasks/TaskManager.js:58-60 | `{...task, ...updates}` takes every property the patch carries and keeps every other one; id, tags and creation date never change |
| Tasks.MergeIdentityAndIdempotence | src/components/Tasks/TaskManager.js:58-60 | merging an empty patch changes nothing, and merging a patch twice is the same as merging it once |
| Tasks.MergeById | src/components/Tasks/TaskManager.js:58-60 | the update `map` keeps the list's length |
| Tasks.MergeByIdAt | src/components/Tasks/TaskManager.js:58-60 | at each position, a task with the id is merged and any other task is left as it is |
| Tasks.MergeByIdKeepsIds | src/components/Tasks/TaskManager.js:58-60 | every position keeps its id after the update |
| Tasks.MergeByIdNoMatch | src/components/Tasks/TaskManager.js:58-60 | when no task has the id, the list is unchanged |
| Tasks.MergeByIdPrefix | src/components/Dashboard/Dashboard.js:114-119 | merging the first five tasks gives the first five of the merged list |
| Tasks.RemoveById | src/components/Tasks/TaskManager.js:71 | the delete `filter` never lengthens the list |
| Tasks.RemoveByIdKeepsOthers | src/components/Tasks/TaskManager.js:71 | a task survives exactly when it was in the list with another id; the length drops by the number of tasks with the id |
| Tasks.RemoveByIdConcat | src/components/Tasks/TaskManager.js:71 | removal works piece by piece, so the surviving tasks keep their order |
| Tasks.RemoveByIdNoMatch | src/components/Tasks/TaskManager.js:71 | when no task has the id, removal changes nothing |
| TaskForm.TitleError | src/components/Tasks/TaskForm.js:19-23 | a title fails exactly when it is blank or longer than 100 code units; blank is reported as required, before length |
| TaskForm.DescriptionError | src/components/Tasks/TaskForm.js:25-27 | a description fails exactly when it is longer than 500 code units |
| TaskForm.DueDateError | src/components/Tasks/TaskForm.js:29-39 | an empty date is required, and a day before today is in the past; today and later days pass, and so does an unparsable date |
| TaskForm.TaskErrors | src/components/Tasks/TaskForm.js:16-43 | there is an entry exactly for each failing rule, holding that rule's message, and there are no other keys |
| TaskForm.TaskErrorsShown | src/components/Tasks/TaskForm.js:16-43 | every reported error is a non-empty message, so the form shows it |
| TaskForm.TaskErrorsEmptyIff | src/components/Tasks/TaskForm.js:41-42 | validation passes exactly when the title is not blank and has at most 100 code units, the description has at most 500, and a date is given that is not before today |
| TaskForm.LooksValid | src/components/Tasks/TaskForm.js:93-95 | the button is enabled exactly when the title is not blank, the description has at most 500 code units and a due date is chosen |
| TaskForm.ValidImpliesLooksValid | src/components/Tasks/TaskForm.js:93-95 | a form that validates also enables the submit button |
| TaskForm.LooksValidButPastDue | src/components/Tasks/TaskForm.js:93-95 | the converse fails: a past day enables the button and then fails with the past-date message alone |
| TaskForm.ParseTags | src/components/Tasks/TaskForm.js:53 | every tag is non-empty, has no white space at either end and contains no comma |
| TaskForm.TrimEach | src/components/Tasks/TaskForm.js:53 | `map(tag => tag.trim())` keeps the length, and each element is the trimmed piece |
| TaskForm.NonEmptyOnly | src/components/Tasks/TaskForm.js:53 | `filter(tag => tag)` keeps only non-empty input strings, and every non-empty input string is kept |
| TaskForm.NonEmptyOnlySingle | src/components/Tasks/TaskForm.js:53 | one string is kept exactly when it is non-empty; with `NonEmptyOnlyConcat` this fixes the result and its order for every list |
| TaskForm.NonEmptyOnlyKeepsAll | src/components/Tasks/TaskForm.js:53 | a list without empty strings passes the filter unchanged, in order |
| TaskForm.SplitAround | src/components/Tasks/TaskForm.js:53 | splitting `x,y` gives the pieces of `x` followed by those of `y` |
| TaskForm.TrimEachConcat | src/components/Tasks/TaskForm.js:53 | trimming each piece distributes over concatenation |
| TaskForm.NonEmptyOnlyConcat | src/components/Tasks/TaskForm.js:53 | filtering out empty pieces distributes over concatenation |
| TaskForm.ParseTagsConcat | src/components/Tasks/TaskForm.js:53 | the tags of `x,y` are the tags of `x` followed by the tags of `y` |
| TaskForm.ParseTagsSingle | src/components/Tasks/TaskForm.js:53 | text without a comma gives no tag when it is blank, and otherwise exactly one tag, its trimmed self |
| TaskForm.SplitNoSeparator | src/components/Tasks/TaskForm.js:53 | text without the separator splits into itself alone |
| TaskForm.TaskFormState.constructor | src/components/Tasks/TaskForm.js:5-14 | the initial form is empty, with priority Medium and status Pending, and there are no errors |
| TaskForm.TaskFormState.ValidateForm | src/components/Tasks/TaskForm.js:16-43 | the stored errors are `TaskErrors` of the current fields; the result is true exactly when there are none |
| TaskForm.TaskFormState.HandleSubmit | src/components/Tasks/TaskForm.js:46-67 | a draft is submitted exactly when validation passes, and it holds the five fields and the parsed tags |
| TaskForm.TaskFormState.HandleChange | src/components/Tasks/TaskForm.js:70-83 | the named field takes the value, every other field is kept, and that field's shown error is blanked |
| TaskForm.TaskFormState.IsFormValid | src/components/Tasks/TaskForm.js:93-95 | the button is enabled exactly when the title is not blank, the description has at most 500 code units and a date is picked |
| EditTaskModal.FormDate | src/components/Tasks/EditTaskModal.js:21-29 | a valid date shows as its day, and a missing or invalid date as empty |
| EditTaskModal.FormDateOfStored | src/components/Tasks/EditTaskModal.js:21-29 | a picked day, once stored, loads back into the dialog as the same day |
| EditTaskModal.StoredFormDate | src/components/Tasks/EditTaskModal.js:21-29 | loading a date and saving it again gives back the instant exactly when it was a midnight |
| EditTaskModal.FormOf | src/components/Tasks/EditTaskModal.js:31-37 | the loaded form defaults text to empty, priority to Medium and status to Pending, so priority and status are never empty |
| EditTaskModal.ToPatch | src/components/Tasks/TaskManager.js:85 | the update carries exactly the five form fields, with the date stored from the picked day |
| EditTaskModal.SaveThenLoad | src/components/Tasks/EditTaskModal.js:19-39 | saving a form and loading the merged task shows the same form, when priority and status are non-empty and the date parses |
| EditTaskModal.Edit.Apply | src/components/Tasks/EditTaskModal.js:88-101 | `{...prev, [name]: value}` changes the named field only |
| EditTaskModal.Modal.constructor | src/components/Tasks/EditTaskModal.js:9-15 | the dialog starts with the empty form and no errors |
| EditTaskModal.Modal.LoadTask | src/components/Tasks/EditTaskModal.js:19-39 | the form is loaded from a given task and left as it was without one |
| EditTaskModal.Modal.ValidateForm | src/components/Tasks/EditTaskModal.js:41-68 | the errors are the create form's `TaskErrors` of the dialog's fields; the result is true exactly when there are none |
| EditTaskModal.HasId | src/components/Tasks/EditTaskModal.js:77 | the guard passes exactly when there is a task and its `_id` is truthy, that is present and non-empty |
| EditTaskModal.Modal.HandleSubmit | src/components/Tasks/EditTaskModal.js:70-86 | a payload goes out exactly when validation passes and the task has an id, and it holds that id and the form |
| EditTaskModal.Modal.HandleChange | src/components/Tasks/EditTaskModal.js:88-101 | the named field takes the value, and that field's shown error is blanked |
| EditTaskModal.Modal.IsFormValid | src/components/Tasks/EditTaskModal.js:111-113 | the button is enabled exactly when the title is not blank, the description has at most 500 code units and a date is picked |
| EditTaskModal.ValidatedFormLooksValid | src/components/Tasks/EditTaskModal.js:111-113 | a dialog form that validates also enables the save button |
| TaskItem.IsPastDue | src/components/Tasks/TaskItem.js:18-29 | past due exactly when the date is valid, its day is before today, and the task is not completed |
| TaskItem.DaysUntilDue | src/components/Tasks/TaskItem.js:31-43 | no date counts as 0 days, an invalid date as NaN, and any other date as the difference of day numbers |
| TaskItem.DueDateLabel | src/components/Tasks/TaskItem.js:48-55 | a dated label shows the task's own due date and never appears without one, and Overdue needs a valid date; `LabelByDay` and `LabelRanges` state the whole cascade |
| TaskItem.LabelByDay | src/components/Tasks/TaskItem.js:45-55 | for a task that is not completed, the label is Overdue before today, Due Today, Due Tomorrow, in N days for 2 to 6 days, and dated from 7 days on; no date reads Due Today and an invalid date is shown by date |
| TaskItem.LabelRanges | src/components/Tasks/TaskItem.js:45-55 | "Due in N days" only ever shows 2 to 6 days; Overdue shows exactly when the task is past due; Completed shows exactly for completed tasks |
| TaskItem.PriorityIconOf | src/components/Tasks/TaskItem.js:57-64 | High, Medium and Low have their own icons; anything else gets the default icon |
| TaskItem.ShownPriority | src/components/Tasks/TaskItem.js:91-92 | the card shows the task's priority, or Medium when it is missing or empty |
| TaskItem.ShownStatus | src/components/Tasks/TaskItem.js:94-95 | the card shows the task's status, or Pending when it is missing or empty |
| TaskItem.BadgeIcon | src/components/Tasks/TaskItem.js:92 | a task without a priority shows the Medium icon, and an unknown priority the default icon |
| TaskItem.StatusIconDone | src/components/Tasks/TaskItem.js:66-68 | the card shows the completed icon exactly for a task whose status is Completed; the `'Pending'` default never shows it |
| TaskItem.StatusIconAgrees | src/components/Tasks/TaskItem.js:66-72 | the completed icon shows exactly when the due-date label reads Completed, and after a toggle exactly for a task that was Pending |
| TaskItem.ToggledStatus | src/components/Tasks/TaskItem.js:71 | Pending becomes Completed, and every other status becomes Pending |
| TaskItem.TogglePatch | src/components/Tasks/TaskItem.js:72 | the toggle's update carries the new status and nothing else |
| TaskItem.ToggleTwice | src/components/Tasks/TaskItem.js:70-73 | toggling changes only the status, and toggling a Pending or Completed task twice restores it |
| Api.NatDigits | src/services/api.js:109 | a number is written as one or more decimal digits |
| Api.NatDigitsValue | src/services/api.js:109 | the digits spell the number: their decimal value is `n`, and only `0` starts with the digit `0` |
| Api.Text | src/services/api.js:109 | `String(value)`: a string goes out as itself, a non-negative number as decimal digits that denote it with no leading zero, a negative number as `-` followed by such digits of its magnitude, and a boolean as `true` exactly when it is true |
| Api.Kept | src/services/api.js:106-111 | no more parameters are appended than were given |
| Api.KeptConcat | src/services/api.js:106-111 | parameters are filtered one by one, so the survivors keep the `Object.entries` order |
| Api.KeptOne | src/services/api.js:107-109 | one parameter is appended as its text unless it is undefined, null or `''` |
| Api.KeptEmptyIff | src/services/api.js:106-112 | the query is empty exactly when every value is undefined, null or `''` |
| Api.ZeroAndFalseKept | src/services/api.js:107 | `0` and `false` are not dropped and go out as `"0"` and `"false"` |
| Api.Serialize | src/services/api.js:112 | the query string is empty exactly when no pair was appended |
| Api.GetTasksPath | src/services/api.js:104-114 | the loop appends exactly the kept parameters; the path is `/tasks` when none survive, and `/tasks?` followed by the query otherwise |
| Api.TaskPath | src/services/api.js:115-119 | a single-task path is `/tasks/` followed by the id, or by `undefined` when there is none |
| Api.TaskPathInjective | src/services/api.js:115-119 | two ids give the same path exactly when they are equal, or when one is absent and the other is the text `undefined` |
| Api.Storage.constructor | src/services/api.js:30 | storage starts with the given items |
| Api.Storage.GetItem | src/services/api.js:30 | `getItem` returns the stored string, or null when the key is absent |
| Api.Storage.RemoveItem | src/services/api.js:56-57 | `removeItem` deletes the key and nothing else |
| Api.RequestConfig.constructor | src/services/api.js:29 | a request starts with the caller's headers |
| Api.WithToken | src/services/api.js:29-34 | with a truthy token stored, `Authorization` is `Bearer <token>`; otherwise the headers are unchanged; other headers are always kept, and only `Authorization` can be added |
| Api.AttachToken | src/services/api.js:28-40 | the request interceptor leaves the headers as `WithToken` of the stored items |
| Api.OnResponseError | src/services/api.js:48-70 | a 401 removes `token` and `user` and nothing else; any other error leaves storage alone; the error is always passed on |
| Api.NoTokenAfterUnauthorized | src/services/api.js:55-58 | after a 401 has cleared the credentials, requests carry no bearer header |
| TaskManager.Fetched | src/components/Tasks/TaskManager.js:25-29 | a bare array is the list, and so is an object whose `data` is an array; every other body gives `[]` |
| TaskManager.Manager.constructor | src/components/Tasks/TaskManager.js:10-15 | the page starts with no tasks, loading, no filters, no sort key and no dialog open |
| TaskManager.Manager.FetchParams | src/components/Tasks/TaskManager.js:20-23 | the parameters are the filters, plus `sortBy` when a sort key is set; `sortBy` keeps its place if a filter has that name and goes last otherwise |
| TaskManager.Manager.FetchTasks | src/components/Tasks/TaskManager.js:17-33 | the request path is built from the kept parameters; the list becomes the normalised body, or `[]` when the request threw; loading ends false |
| TaskManager.Manager.HandleTaskCreated | src/components/Tasks/TaskManager.js:39-52 | on success the server's task is put first; otherwise the list is unchanged |
| TaskManager.Manager.HandleTaskUpdated | src/components/Tasks/TaskManager.js:54-65 | on success every task with the id takes the updates; otherwise the list is unchanged |
| TaskManager.Manager.HandleTaskDeleted | src/components/Tasks/TaskManager.js:67-76 | on success the tasks with the id are removed; otherwise the list is unchanged |
| TaskManager.Manager.HandleTaskEdit | src/components/Tasks/TaskManager.js:78-81 | the dialog opens on the task, replacing any task being edited |
| TaskManager.Manager.HandleEditSave | src/components/Tasks/TaskManager.js:83-101 | on success the payload's fields are merged into the task with its id and the dialog closes; otherwise nothing changes |
| TaskManager.Manager.HandleEditCancel | src/components/Tasks/TaskManager.js:103-106 | the dialog closes |
| TaskManager.Manager.HandleFilterChange | src/components/Tasks/TaskManager.js:108-113 | the filter is set to the value, with `''` stored as undefined; every other filter is kept |
| TaskManager.Manager.HandleSortChange | src/components/Tasks/TaskManager.js:115-117 | the sort key becomes the value |
| TaskManager.UndefinedNotSent | src/components/Tasks/TaskManager.js:111 | a filter cleared with `''` never reaches the query string |
| Dashboard.Count | src/components/Dashboard/Dashboard.js:54 | `filter(p).length` is at most the list's length |
| Dashboard.CountConcat | src/components/Dashboard/Dashboard.js:54-68 | counting works piece by piece |
| Dashboard.CountAllOrNone | src/components/Dashboard/Dashboard.js:54-68 | the count is the whole list exactly when every task passes the test, and 0 exactly when none does |
| Dashboard.CountMono | src/components/Dashboard/Dashboard.js:59-68 | a weaker test counts at least as many tasks |
| Dashboard.CountDisjoint | src/components/Dashboard/Dashboard.js:54-68 | two tests that no task passes together count at most the whole list between them |
| Dashboard.CalculateStats | src/components/Dashboard/Dashboard.js:52-78 | total is the list's length, and every other count is at most total |
| Dashboard.IsOverdueAt | src/components/Dashboard/Dashboard.js:59-64 | a task counted overdue has a valid due date and is not completed; such a task is overdue exactly when its due instant is before now |
| Dashboard.StatusPartition | src/components/Dashboard/Dashboard.js:54-56 | each task has exactly one of Completed, Pending, In Progress or another status |
| Dashboard.StatusCounts | src/components/Dashboard/Dashboard.js:53-56 | completed, pending and in progress add up to at most total, and to total exactly when every task has one of those three statuses |
| Dashboard.OverdueBound | src/components/Dashboard/Dashboard.js:59-68 | a completed task is never overdue, so overdue plus completed is at most total |
| Dashboard.HighPriorityCount | src/components/Dashboard/Dashboard.js:57 | highPriority is total exactly when every priority is High, and 0 exactly when none is |
| Dashboard.StatsConcat | src/components/Dashboard/Dashboard.js:52-78 | the statistics of two lists together are the sums of their statistics |
| Dashboard.PastDueIsOverdue | src/components/Dashboard/Dashboard.js:59-68 | a task its card shows as past due is counted as overdue |
| Dashboard.PastDueCountAtMostOverdue | src/components/Dashboard/Dashboard.js:59-68 | the dashboard counts at least as many overdue tasks as the cards show past due |
| Dashboard.DueTodayCountsAsOverdue | src/components/Dashboard/Dashboard.js:61-64 | a pending task due at midnight today is overdue on the dashboard just after midnight, while its card is not past due and reads Due Today |
| Dashboard.DashboardList | src/components/Dashboard/Dashboard.js:39-46 | the handler fails on an undefined or null body and on a truthy `data` that is not an array; an array `data` is the list; anything else gives `[]` |
| Dashboard.ListBodiesCompared | src/components/Dashboard/Dashboard.js:39 | the two pages agree on `{data: [...]}`; a bare array is `[]` on the dashboard but the list on the task page |
| Dashboard.Recent | src/components/Dashboard/Dashboard.js:42 | `slice(0, 5)` is the first five tasks, or all of them when there are fewer |
| Dashboard.Board.constructor | src/components/Dashboard/Dashboard.js:12-26 | the dashboard starts with zero statistics, no tasks, loading and no dialog open |
| Dashboard.Board.FetchDashboardData | src/components/Dashboard/Dashboard.js:32-50 | on success it stores the list, its statistics and its first five; on failure it empties both lists and keeps the old statistics; loading ends false |
| Dashboard.Board.HandleTaskCreated | src/components/Dashboard/Dashboard.js:80-82 | the dashboard fetches the list again, as `FetchDashboardData` states |
| Dashboard.Board.HandleTaskChanged | src/components/Dashboard/Dashboard.js:84-100 | when the update or delete call returns, whatever its `success`, the dashboard fetches again; when the call throws, nothing changes |
| Dashboard.Board.HandleTaskEdit | src/components/Dashboard/Dashboard.js:102-105 | the dialog opens on the task |
| Dashboard.Board.HandleEditSave | src/components/Dashboard/Dashboard.js:107-130 | on success both lists take the updates, returned as `merged` and `mergedRecent` with the recent list still the first five; then the dialog closes and the dashboard fetches again, so lists and statistics end as the fetch leaves them; otherwise nothing changes |
| Dashboard.Board.HandleEditCancel | src/components/Dashboard/Dashboard.js:132-135 | the dialog closes |
| Login.EmailError | src/components/Auth/Login.js:20-24 | a blank e-mail is missing; otherwise it is invalid exactly when it does not match the pattern |
| Login.PasswordError | src/components/Auth/Login.js:26-30 | an empty password is missing; otherwise it is too short exactly when it has fewer than 6 code units |
| Login.LoginErrors | src/components/Auth/Login.js:17-34 | there is an entry exactly for each failing rule, holding that rule's message |
| Login.LoginErrorsEmptyIff | src/components/Auth/Login.js:32-33 | sign-in validates exactly when the e-mail is not blank and matches the pattern, and the password has at least 6 code units |
| Login.AddressInsideTextIsValid | src/components/Auth/Login.js:22 | any text around `a@b.c` still passes the e-mail rule |
| Login.LoginForm.constructor | src/components/Auth/Login.js:7-12 | the form starts empty, with no errors |
| Login.LoginForm.ValidateForm | src/components/Auth/Login.js:17-34 | the errors are `LoginErrors` of the fields; the result is true exactly when there are none |
| Login.LoginForm.HandleSubmit | src/components/Auth/Login.js:36-57 | `login` is called, with the e-mail and password, exactly when validation passes |
| Login.LoginForm.HandleChange | src/components/Auth/Login.js:59-72 | the named field takes the value, and that field's shown error is blanked |
| Register.NameError | src/components/Auth/Register.js:21-23 | a name fails exactly when it is blank |
| Register.ConfirmError | src/components/Auth/Register.js:37-39 | the confirmation fails exactly when it differs from the password |
| Register.RegisterErrors | src/components/Auth/Register.js:18-43 | there is an entry exactly for each of the four failing rules, holding that rule's message |
| Register.SameRulesAsLogin | src/components/Auth/Register.js:25-35 | the e-mail and password entries are exactly those of the sign-in form |
| Register.RegisterErrorsEmptyIff | src/components/Auth/Register.js:41-42 | sign-up validates exactly when the name is not blank, the e-mail and password pass the sign-in rules, and the confirmation equals the password |
| Register.AllFourErrors | src/components/Auth/Register.js:18-43 | all four rules are checked independently, so all four errors can be reported together |
| Register.RegisterForm.constructor | src/components/Auth/Register.js:6-12 | the form starts empty, with no errors |
| Register.RegisterForm.ValidateForm | src/components/Auth/Register.js:18-43 | the errors are `RegisterErrors` of the fields; the result is true exactly when there are none |
| Register.RegisterForm.HandleSubmit | src/components/Auth/Register.js:45-65 | `register` is called, with the name, e-mail and password, exactly when validation passes |
| Register.RegisterForm.HandleChange | src/components/Auth/Register.js:67-80 | the named field takes the value, and that field's shown error is blanked |

## Left out

- Network, timers and the clock are not modelled. Replies, list bodies and the
  current day or instant are inputs. Only the client logic around them is modelled.
- Asynchrony is not modelled. Each handler is one atomic step, so the model does
  not cover interleaved requests, stale closures, or the intermediate
  `loading: true` that the user sees while a request runs.
- Dates are simplified:
  - the time zone and daylight saving are ignored: a day is
    `floor(ms / 86400000)`, and `setHours(0, 0, 0, 0)` is that truncation in UTC;
  - parsing stays abstract: a date string is a valid instant, an invalid date
    (NaN) or a falsy value;
  - instants are not bounded: JavaScript turns an instant beyond 8.64e15 ms either
    side of the epoch into an Invalid Date, which the dialog loads as `''`, while
    `At(ms)` accepts any `ms`;
  - `new Date(null)`, which is the epoch, is not modelled.
- Integer-like object keys are not modelled. JavaScript visits them first, in
  ascending order, before the other keys in insertion order; the filters and the
  sort key the pages set are never integer-like.
- Percent-encoding in `URLSearchParams` is the parameter `enc`, and its output is
  not modelled.
- Numeric query values are integers only:
  - fractional numbers and their formatting are not modelled;
  - a parameter given as an object is not modelled.
- User-facing side effects are left out:
  - toasts, `alert`, `console` logging, `window.confirm` before a delete;
  - the redirect to `/login` after a 401;
  - the `ECONNABORTED` timeout alert;
  - navigation after sign-in or sign-up.
- `Login.LoginForm.HandleSubmit`: it returns the credentials that would be sent. It
  does not model the `login` call's result or the `loading` flag around it.
- `Register.RegisterForm.HandleSubmit`: the same holds for `register`.
- Rendering is left out:
  - the JSX markup;
  - the percentages and completion bar of the dashboard;
  - `formatDate`;
  - the character counters;
  - the `maxLength` attributes of the inputs, which only the browser enforces;
  - the components that only render (`StatsCard`, `RecentTasks`, `TaskList`,
    `FilterSort`, `Header`, `Footer`, `App`, `About`, `Contact`).
- Some state is not modelled:
  - the dashboard's `filters` and `sortBy` hooks, which it never uses for its own
    fetch;
  - the fact that the dashboard fetch asks for `sortBy: 'createdAt'`. Its request
    path is not part of `Dashboard.Board.FetchDashboardData`.
- Some API calls are not modelled:
  - `getStats` and the `authAPI` calls are not modelled, neither their requests nor
    their replies;
  - `getTask` is modelled only by its path (`Api.TaskPath`), and `createTask` only by
    the reply that `TaskManager.Manager.HandleTaskCreated` receives;
  - `checkBackendHealth`, `testConnection` and the axios instance's configuration
    are not modelled;
  - the auth context's `login`, `register` and `logout` are not part of this model.
- `TaskManager.Manager.HandleTaskCreated`: a successful reply whose `data` is
  missing would prepend `undefined`. The model always prepends the task the reply
  carries.
- `JsStrings.JsLength`: code points are counted as one UTF-16 unit below U+10000
  and two above. The model has no unpaired surrogates.
- `JsStrings.TrimStart` and `JsStrings.TrimEnd`: their own contracts state only
  the length bound. What they remove is stated by `JsStrings.TrimStartSpec` and
  `JsStrings.TrimEndSpec`.
- `JsStrings.Trim`: its own contract states only the length bound. What it removes
  is stated by `JsStrings.TrimSpec`.
- `Dashboard.Board.HandleEditSave`: the merged lists are visible only until the
  fetch that follows answers. The model's final state is the fetched one, and the
  merged lists are stated through the ghost results `merged` and `mergedRecent`.
- `Tasks.MergeById` and `Tasks.RemoveById`: their own contracts state only the
  length. Their meaning is stated by the lemmas next to them.
