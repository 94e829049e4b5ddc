# Job application tracker: a verified model of its client-side state engine

The tracker is a single-page web application for following job
applications. Each application goes through five stages: interested,
applied, interview, rejected and offer. The application keeps its data in
browser storage and seeds it with eight demonstration records. It also
offers:

- a filtered and sorted job list;
- a dashboard with counts, a status chart and follow-up reminders;
- a three-column Kanban board;
- a resume analyser backed by a small API server.

This project models the logic behind those screens in Dafny and proves
what that logic promises. Each source file has its own module:

- **Stores.** `JobsContext` and `KanbanContext` hold the application and
  task lists as classes. Each has the storage map it loads from and writes
  through to. Their list transforms are pure functions.
- **Job list.** `JobList` filters, then sorts a copy with an insertion sort
  standing for the stable library sort. `FilterBar` encodes and decodes the
  filter controls.
- **Jobs and forms.** `StatusBadge` maps a status to its badge. `JobForm`,
  `AddJobForm` and `JobCard` hold the add and edit forms, and build the
  records those forms submit.
- **Dashboard.** `StatCards`, `StatusChart` and `UpcomingReminders` hold
  the dashboard's loops. These are the status tallies, the generation of
  reminders, and the in-place sort of reminders by date. Each is a method
  proved against a specification function.
- **Kanban board.** `KanbanBoard` is the column partition and the
  drag-and-drop controller.
- **Resume analysis.** `ResumeAnalyzer` is the page's upload checks and its
  handling of replies. `Server` is the health check and the analysis
  handler. `ResumeAnalysis` is the coercion of parsed replies that both
  share.
- **Sign-up and log-in.** `Signup` and `Login` are the form pages.
- **Shared helpers.** `Text` covers trimming, ASCII case mapping, `includes`,
  `indexOf`, `lastIndexOf` and `split`. `Decimal` renders clock readings in
  ids. `Collation` is a total order standing for `localeCompare`, `Json`
  is parsed JSON values, and `Seqs` is order-keeping subsequences.

Instants are integer milliseconds, and calendar days are UTC midnights
(`Types.DayStart`). Anything that reads the clock, the network or the
model's reply takes it as a parameter:

- a clock reading `now` or `clock`;
- the server's answer to a request `server`, which is either a reply or the message of the error that rejected the request;
- the model's completion `completion`;
- the JSON parser `parse`.

## Model

| member | source | states |
|---|---|---|
| Text.Trim | src/components/ui/KanbanBoard.tsx:32 | `trim()`: the result is the slice left after leading and trailing white space; what is cut is white space; the result's ends are not; it is empty iff the input is all white space |
| Text.TrimIdempotent | src/components/jobs/JobCard.tsx:111-112 | trimming a trimmed name changes nothing |
| Text.Lower | src/components/jobs/JobList.tsx:40-42 | `toLowerCase()` keeps the length and lower-cases each character (ASCII) |
| Text.Capitalize | src/components/dashboard/StatusChart.tsx:26 | first character upper-cased, the rest unchanged, same length |
| Text.LowerCapitalize | src/components/dashboard/StatusChart.tsx:26 | lower-casing a capitalised lower-case word gives the word back |
| Text.Includes | src/components/jobs/JobList.tsx:41-42 | `includes` is true iff the needle occurs at some position |
| Text.IndexOf | server/index.ts:78 | the first index holding the character, -1 iff there is none |
| Text.LastIndexOf | server/index.ts:79 | the last index holding the character, -1 iff there is none |
| Text.Split | src/components/jobs/FilterBar.tsx:35 | `split` yields at least one piece; no piece holds the separator; joined with the separator the pieces give the input back |
| Text.SplitJoin | src/components/jobs/FilterBar.tsx:35-38 | splitting `a-b` at `-` yields exactly `[a, b]` when neither part holds `-` |
| Decimal.NatToString | src/components/jobs/AddJobForm.tsx:61 | a clock reading's decimal text is a non-empty digit string without leading zero |
| Decimal.DigitsValueOfNatToString | src/components/jobs/AddJobForm.tsx:61 | reading the decimal text back gives the number |
| Decimal.NatToStringInjective | src/components/jobs/AddJobForm.tsx:61 | different numbers render differently |
| Decimal.PrefixedNumeralInjective | src/contexts/KanbanContext.tsx:45 | a prefix followed by a numeral is injective in the number |
| Collation.LocaleCompare | src/components/jobs/JobList.tsx:63-65 | a three-way comparison that is zero exactly on equal strings |
| Collation.LocaleCompareFlip | src/components/jobs/JobList.tsx:63-65 | swapping the arguments negates the comparison |
| Collation.LocaleCompareTransitive | src/components/jobs/JobList.tsx:63-65 | the comparison is transitive |
| Types.ParseStatus | src/types/index.ts:2 | a string parses to the status it names, or to nothing when it names none |
| Types.ParseStatusName | src/types/index.ts:2 | every status name parses back to its status |
| Types.StatusNameInjective | src/types/index.ts:2 | status names are equal iff the statuses are |
| Types.CapitalizedStatus | src/components/dashboard/StatusChart.tsx:26 | lower-casing a capitalised status name recovers the name |
| Types.DayStart | src/components/dashboard/UpcomingReminders.tsx:58 | the midnight of an instant's day is at most the instant, within a day, and a whole number of days |
| Types.DayStartMonotone | src/components/dashboard/UpcomingReminders.tsx:58 | a later instant never has an earlier midnight |
| Json.Lookup | server/index.ts:83-88 | member lookup is missing iff no member has the name, and otherwise yields a value of a member with that name |
| Json.LookupAppend | server/index.ts:82 | the last member of a name wins; members of other names do not affect the lookup |
| StatusTally.CountStatus | src/components/dashboard/StatCards.tsx:14-17 | a status count is at most the list length |
| StatusTally.CountStatusCons | src/components/dashboard/StatCards.tsx:14-17 | a job put in front adds one exactly to its own status's count |
| StatusTally.CountStatusSnoc | src/components/dashboard/StatCards.tsx:14-17 | one more job adds one to its own status's count and nothing to the others |
| StatusTally.CountStatusPositive | src/components/dashboard/StatCards.tsx:19-20 | a count is positive iff some job has that status, so an absent status reads as 0 |
| StatusTally.OccurrencesOfMember | src/components/dashboard/StatusChart.tsx:20-25 | in a list without repeats a status occurs once if present, else never |
| StatusTally.SumCountsSnoc | src/components/dashboard/StatCards.tsx:14-17 | one more job adds the number of times its status is listed |
| StatusTally.SumCountsIsLength | src/components/dashboard/StatusChart.tsx:20-28 | counts over a repeat-free list covering every job's status sum to the number of jobs |
| StatusTally.SumCountsOfEmpty | src/components/dashboard/StatusChart.tsx:20-28 | no jobs, no counts |
| StatusTally.StatusCountsSumToTotal | src/components/dashboard/StatCards.tsx:14-17 | the five status counts sum to the number of jobs |
| SampleData.DaysAgo | src/data/sampleJobs.ts:6-8 | `daysAgo(d)` is the midnight of the day `d` days before now |
| SampleData.DaysAgoMonotone | src/data/sampleJobs.ts:6-8 | fewer days back never gives an earlier date |
| SampleData.BuildJobs | src/data/sampleJobs.ts:10-91 | one job per record, in record order |
| SampleData.SeedRowsFacts | src/data/sampleJobs.ts:10-91 | eight records with ids `job-1`..`job-8`, non-empty names, and update ages no larger than application ages |
| SampleData.SampleJobsIds | src/data/sampleJobs.ts:12-84 | the seed has eight jobs with ids `job-1`..`job-8`, pairwise distinct, and non-empty names |
| SampleData.RowStatuses | src/data/sampleJobs.ts:17-87 | one status per record |
| SampleData.CountStatusOfRows | src/data/sampleJobs.ts:17-87 | the jobs' status counts are the records' status occurrences |
| SampleData.SeedRowStatuses | src/data/sampleJobs.ts:17-87 | the records' statuses in order |
| SampleData.SeedStatusCounts | src/data/sampleJobs.ts:17-87 | the occurrences of each status among the records' statuses |
| SampleData.SampleJobsStatuses | src/data/sampleJobs.ts:17-87 | applied 3, interview 2, interested, rejected and offer 1 each |
| SampleData.SampleJobsUpdatedAfterApplied | src/data/sampleJobs.ts:15-89 | no seed job was updated before it was applied for |
| JobsContext.AppendJob | src/contexts/JobsContext.tsx:44-46 | the job is added at the end, the others are kept in place, and the length grows by one (ids are not checked) |
| JobsContext.ReplaceJob | src/contexts/JobsContext.tsx:48-52 | same length; each element with the id becomes the update, every other is unchanged |
| JobsContext.ReplaceJobAbsent | src/contexts/JobsContext.tsx:48-52 | updating an id not in the list changes nothing |
| JobsContext.RemoveJob | src/contexts/JobsContext.tsx:54-56 | exactly the jobs with the id are removed; the rest keep their multiplicity and order |
| JobsContext.RemoveJobIdempotent | src/contexts/JobsContext.tsx:54-56 | deleting twice equals deleting once |
| JobsContext.RemoveJobAbsent | src/contexts/JobsContext.tsx:54-56 | deleting an absent id changes nothing |
| JobsContext.JobsProvider.constructor | src/contexts/JobsContext.tsx:19-20 | the list starts empty and loading |
| JobsContext.JobsProvider.Persist | src/contexts/JobsContext.tsx:38-42 | the whole list is written under `jobApplications` unless loading, and nothing else changes |
| JobsContext.JobsProvider.LoadOrSeed | src/contexts/JobsContext.tsx:22-35 | the stored list when there is one, else the seed; loading ends; the list is written back |
| JobsContext.JobsProvider.AddJob | src/contexts/JobsContext.tsx:44-46 | the list becomes the appended list and is written through |
| JobsContext.JobsProvider.UpdateJob | src/contexts/JobsContext.tsx:48-52 | the list becomes the replaced list and is written through |
| JobsContext.JobsProvider.DeleteJob | src/contexts/JobsContext.tsx:54-56 | the list becomes the filtered list and is written through |
| JobsContext.ReloadAfterChanges | src/contexts/JobsContext.tsx:25-42 | a fresh session starts from exactly the list the previous session ended with |
| JobList.FilteredJobs | src/components/jobs/JobList.tsx:32-49 | every matching job kept as often as it occurs, every other dropped, order kept |
| JobList.CompareJobsFlip | src/components/jobs/JobList.tsx:52-75 | the comparator is antisymmetric |
| JobList.CompareJobsTransitive | src/components/jobs/JobList.tsx:52-75 | the comparator is transitive |
| JobList.Insert | src/components/jobs/JobList.tsx:52 | insertion adds exactly the one element |
| JobList.InsertSorted | src/components/jobs/JobList.tsx:52-75 | insertion into a sorted list keeps it sorted |
| JobList.SortJobs | src/components/jobs/JobList.tsx:52-75 | the sorted copy is a permutation of its input and is ordered by the comparator |
| JobList.VisibleJobsContents | src/components/jobs/JobList.tsx:32-75 | the output is a sorted permutation of the filtered subsequence: a job is shown iff it is in the input and matches, as often as it occurs |
| JobList.VisibleJobsConditions | src/components/jobs/JobList.tsx:32-49 | a job is shown iff it has the chosen status (any when unset) and, with a non-empty search, the lower-cased term occurs in its lower-cased company name or title |
| JobList.MatchesMeaning | src/components/jobs/JobList.tsx:34-46 | the two filter conditions spelled out |
| JobList.VisibleJobsOrder | src/components/jobs/JobList.tsx:53-72 | dates nondecreasing for asc and nonincreasing for desc, the same for last update, company names by the collation; defaults are date applied, descending |
| JobList.EmptyStateMessage | src/components/jobs/JobList.tsx:77-86 | "Try adjusting your filters" iff a status or a non-empty search is set, otherwise the first-job hint |
| FilterBar.HandleStatusChange | src/components/jobs/FilterBar.tsx:20-25 | "all" clears the status, a status name sets that status, nothing else changes |
| FilterBar.HandleSearchChange | src/components/jobs/FilterBar.tsx:27-32 | only the search changes, to the typed text |
| FilterBar.ParseField | src/components/jobs/FilterBar.tsx:35-38 | a parsed field names the text |
| FilterBar.ParseDirection | src/components/jobs/FilterBar.tsx:35-38 | a parsed direction names the text |
| FilterBar.HandleSortChange | src/components/jobs/FilterBar.tsx:34-45 | the field and direction are the two pieces of the value split at `-`; status and search are kept |
| FilterBar.SearchBoxValue | src/components/jobs/FilterBar.tsx:54 | the search box shows the search, or the empty string |
| FilterBar.StatusRoundTrip | src/components/jobs/FilterBar.tsx:61 | choosing the value the status select shows gives back the same filter |
| FilterBar.ParseFieldName | src/components/jobs/FilterBar.tsx:78 | a field name parses back and holds no `-` |
| FilterBar.ParseDirectionName | src/components/jobs/FilterBar.tsx:78 | a direction name parses back and holds no `-` |
| FilterBar.SortValueDecodes | src/components/jobs/FilterBar.tsx:34-45 | a `field-direction` value decodes to exactly that field and direction |
| FilterBar.SortRoundTrip | src/components/jobs/FilterBar.tsx:78 | choosing the value the sort select shows gives the filter with its effective order made explicit |
| FilterBar.SortMenuShape | src/components/jobs/FilterBar.tsx:85-89 | five distinct orders; oldest update first is not offered |
| FilterBar.SortMenuDecodes | src/components/jobs/FilterBar.tsx:85-89 | every menu value decodes to its own order |
| StatusBadge.StatusConfig | src/components/jobs/JobStatusBadge.tsx:12-27 | a status name gets that status's badge; any other value gets the grey "Unknown" badge |
| StatusBadge.BadgeOfStatus | src/components/jobs/JobStatusBadge.tsx:14-23 | no status gets the unknown badge; a label lower-cases to its status |
| StatusBadge.BadgeLabels | src/components/jobs/JobStatusBadge.tsx:14-23 | the five labels |
| StatusBadge.BadgeInjective | src/components/jobs/JobStatusBadge.tsx:14-23 | labels and colour classes are equal iff the statuses are |
| KanbanContext.AddTask | src/contexts/KanbanContext.tsx:42-47 | one to-do task with id `task-<clock>` appended, the rest unchanged |
| KanbanContext.MoveTask | src/contexts/KanbanContext.tsx:49-55 | same length; tasks with the id take the new status, others unchanged |
| KanbanContext.DeleteTask | src/contexts/KanbanContext.tsx:57-59 | exactly the tasks with the id removed, the rest in order |
| KanbanContext.TaskIdInjective | src/contexts/KanbanContext.tsx:45 | different clock readings give different task ids |
| KanbanContext.MoveTaskTwice | src/contexts/KanbanContext.tsx:49-55 | the later of two moves wins |
| KanbanContext.AbsentIdUntouched | src/contexts/KanbanContext.tsx:49-59 | moving or deleting an absent id changes nothing |
| KanbanContext.DeleteAfterMove | src/contexts/KanbanContext.tsx:49-59 | deleting after a move equals deleting; deleting is idempotent |
| KanbanContext.KanbanProvider.constructor | src/contexts/KanbanContext.tsx:29 | the list starts empty |
| KanbanContext.KanbanProvider.Persist | src/contexts/KanbanContext.tsx:38-40 | the whole list is written under `kanban-tasks` |
| KanbanContext.KanbanProvider.Mount | src/contexts/KanbanContext.tsx:32-40 | the stored list is loaded when present, and the list is written back |
| KanbanContext.KanbanProvider.Add | src/contexts/KanbanContext.tsx:42-47 | the list becomes the appended list and is written |
| KanbanContext.KanbanProvider.Move | src/contexts/KanbanContext.tsx:49-55 | the list becomes the moved list and is written |
| KanbanContext.KanbanProvider.Delete | src/contexts/KanbanContext.tsx:57-59 | the list becomes the filtered list and is written |
| KanbanBoard.ColumnTasks | src/components/ui/KanbanBoard.tsx:51-52 | a column holds exactly the tasks of its status, in storage order |
| KanbanBoard.ColumnsPartition | src/components/ui/KanbanBoard.tsx:20 | the three columns, in the order todo, doing, done, together hold every task once; their sizes sum to the task count |
| KanbanBoard.DragOutcome | src/components/ui/KanbanBoard.tsx:39-46 | no destination or the same column leaves the tasks; another column is exactly `moveTask(draggableId, destination)` |
| KanbanBoard.DropLandsInColumn | src/components/ui/KanbanBoard.tsx:39-52 | after a move the dragged task is in the destination column and no other |
| KanbanBoard.Board.constructor | src/components/ui/KanbanBoard.tsx:29 | the input starts empty |
| KanbanBoard.Board.HandleTextChange | src/components/ui/KanbanBoard.tsx:74 | the input takes the typed text |
| KanbanBoard.Board.HandleAdd | src/components/ui/KanbanBoard.tsx:31-37 | a blank text adds nothing; otherwise the trimmed text is added as a task and the input is cleared |
| KanbanBoard.Board.OnDragEnd | src/components/ui/KanbanBoard.tsx:39-46 | the tasks become the drag outcome, written only when a move happens |
| KanbanBoard.Board.HandleDelete | src/components/ui/KanbanBoard.tsx:119 | the tasks carrying the card's id are deleted, so the card's task is gone, and the list is written |
| StatCards.TallyStatuses | src/components/dashboard/StatCards.tsx:14-17 | the tally has a key exactly for each status present, holding its count |
| StatCards.RecentCount | src/components/dashboard/StatCards.tsx:26-28 | the recent count is at most the total |
| StatCards.RecentCountMonotone | src/components/dashboard/StatCards.tsx:23-28 | a later cutoff counts no more jobs; a cutoff before every date counts all |
| StatCards.ComputeCards | src/components/dashboard/StatCards.tsx:12-28 | total is the length; recent counts dates at or after now minus 7 days; interviews and offers are the status counts (0 when absent) and within the total |
| StatusChart.FirstOccurrences | src/components/dashboard/StatusChart.tsx:20-25 | each status present among the jobs is listed once and no other status is; there are no more keys than jobs |
| StatusChart.FirstOccurrencesSnoc | src/components/dashboard/StatusChart.tsx:20-23 | a new status joins the keys at the end; a known one does not |
| StatusChart.TallyStep | src/components/dashboard/StatusChart.tsx:21 | one accumulator update keeps the tally invariant |
| StatusChart.Tally | src/components/dashboard/StatusChart.tsx:20-23 | the keys are the first occurrences and each count is the status's count |
| StatusChart.Slices | src/components/dashboard/StatusChart.tsx:25-28 | one entry per key, in key order, with capitalised name and count |
| StatusChart.ChartData | src/components/dashboard/StatusChart.tsx:20-28 | the chart entries are the slices of the first-occurrence keys |
| StatusChart.Render | src/components/dashboard/StatusChart.tsx:30-41 | the empty-state card iff there are no jobs, otherwise the pie of the entries |
| StatusChart.FirstOccurrencesCover | src/components/dashboard/StatusChart.tsx:20-28 | the entry values sum to the number of jobs and are each at least 1; a status has an entry iff it occurs; entries are distinct; no entries iff no jobs |
| StatusChart.SliceColorOfStatus | src/components/dashboard/StatusChart.tsx:11-17 | every status's entry gets its own colour, never the `#ccc` fallback |
| StatusChart.SliceColorFallback | src/components/dashboard/StatusChart.tsx:65 | a name whose lower case is no status gets `#ccc` |
| UpcomingReminders.JobRemindersShape | src/components/dashboard/UpcomingReminders.tsx:26-50 | a job yields its follow-up iff it is applied and applied before now minus 5 days, its scheduled reminder iff its follow-up date is after now, nothing else, at most two, with distinct ids |
| UpcomingReminders.GeneratedUpTo | src/components/dashboard/UpcomingReminders.tsx:26-50 | at most two reminders per job |
| UpcomingReminders.Generate | src/components/dashboard/UpcomingReminders.tsx:21-50 | the loop's pushes are the generated list, at most 2·|jobs| long |
| UpcomingReminders.GeneratedMembers | src/components/dashboard/UpcomingReminders.tsx:26-50 | a reminder is generated iff some job yields it |
| UpcomingReminders.GeneratedFor | src/components/dashboard/UpcomingReminders.tsx:30-48 | a due follow-up (dated now, id `followup-<id>`) and a scheduled reminder ahead (dated at the follow-up date, id `scheduled-<id>`) are generated; every generated reminder is one of these for some job |
| UpcomingReminders.GeneratedAreUpcoming | src/components/dashboard/UpcomingReminders.tsx:30-59 | every generated reminder passes the upcoming filter |
| UpcomingReminders.SortByDate | src/components/dashboard/UpcomingReminders.tsx:53 | the array ends in nondecreasing date order and is a permutation of what it held |
| UpcomingReminders.InsertAt | src/components/dashboard/UpcomingReminders.tsx:53 | one insertion pass extends the sorted prefix by one and permutes the array |
| UpcomingReminders.UpcomingOnly | src/components/dashboard/UpcomingReminders.tsx:56-58 | the kept reminders are an ordered subsequence and all upcoming; nothing is dropped when all are upcoming |
| UpcomingReminders.Shown | src/components/dashboard/UpcomingReminders.tsx:56-59 | at most 5 shown, each dated today or later; when all are upcoming, exactly the first min(5, n) |
| UpcomingReminders.SortedGeneratedShown | src/components/dashboard/UpcomingReminders.tsx:30-59 | for the sorted generated reminders the list shown is their first min(5, n), in date order |
| UpcomingReminders.UpcomingList | src/components/dashboard/UpcomingReminders.tsx:21-59 | the sorted list is a date-ordered permutation of the generated reminders; the shown list is its first min(5, n), each dated today or later |
| JobForm.SetText | src/components/jobs/AddJobForm.tsx:37-42 | the named input takes the value; every other input, the date and the status keep theirs |
| JobForm.SetTextLaterWins | src/components/jobs/AddJobForm.tsx:37-42 | the later of two edits wins; retyping the shown value changes nothing |
| JobForm.SetTextCommutes | src/components/jobs/AddJobForm.tsx:37-42 | edits to different inputs commute |
| AddJobForm.NewJobIdInjective | src/components/jobs/AddJobForm.tsx:61 | different clock readings give different job ids |
| AddJobForm.Form.constructor | src/components/jobs/AddJobForm.tsx:27-35 | empty inputs, status interested, dated today |
| AddJobForm.Form.HandleInputChange | src/components/jobs/AddJobForm.tsx:37-42 | only the named input changes |
| AddJobForm.Form.HandleDateChange | src/components/jobs/AddJobForm.tsx:37-42 | only the date changes, to the chosen day |
| AddJobForm.Form.HandleStatusChange | src/components/jobs/AddJobForm.tsx:44-46 | only the status changes |
| AddJobForm.Form.HandleSubmit | src/components/jobs/AddJobForm.tsx:48-66 | refused with the required-names error iff a name is empty (white space passes); otherwise the record `job-<clock>` with every form field copied and last updated now |
| JobCard.LinkText | src/components/jobs/JobCard.tsx:68-70 | links up to 40 characters unchanged; longer ones are their first 40 plus `...`; never longer than 43 |
| JobCard.ShownLink | src/components/jobs/JobCard.tsx:59-73 | the link line appears iff the link is set and non-empty, showing the link text |
| JobCard.EditedJobFields | src/components/jobs/JobCard.tsx:109-119 | the edit keeps the id and follow-up date; a card mounted on the edited record shows the form with names trimmed and the date at midnight (the submitting card keeps its typed form) |
| JobCard.EditReopens | src/components/jobs/JobCard.tsx:109-119 | on a card mounted on the edited record, submitting the form it opens on changes only the time stamp |
| JobCard.UntouchedEdit | src/components/jobs/JobCard.tsx:109-119 | an untouched submit returns the job stamped now, when its names are trimmed, its optional text fields set and its date a midnight |
| JobCard.BlankNameSavedEmpty | src/components/jobs/JobCard.tsx:111 | a white-space company name is saved as the empty string |
| JobCard.AddedJobReopens | src/components/jobs/JobCard.tsx:30-38 | a job made by the add form opens in the edit dialog showing that form |
| JobCard.Card.constructor | src/components/jobs/JobCard.tsx:28-38 | the edit form mirrors the job, absent optional fields as `""`; both dialogs closed |
| JobCard.Card.SetEditDialog | src/components/jobs/JobCard.tsx:81 | only the edit dialog's open state changes |
| JobCard.Card.SetViewDialog | src/components/jobs/JobCard.tsx:86 | only the view dialog's open state changes |
| JobCard.Card.EditText | src/components/jobs/JobCard.tsx:134-197 | only the named input of the edit form changes |
| JobCard.Card.EditDate | src/components/jobs/JobCard.tsx:153-154 | only the edit form's date changes |
| JobCard.Card.EditStatus | src/components/jobs/JobCard.tsx:160-161 | only the edit form's status changes |
| JobCard.Card.SubmitEdit | src/components/jobs/JobCard.tsx:106-126 | the edited record once, with the card's id, then the dialog closes |
| JobCard.Card.Delete | src/components/jobs/JobCard.tsx:93 | the id handed to `onDelete` is this card's job id |
| ResumeAnalysis.ArrayOrEmpty | src/components/resume/ResumeAnalyzer.tsx:131-141 | an array is kept, anything else becomes `[]` |
| ResumeAnalysis.Coerce | server/index.ts:83-89 | reading `null` fails; otherwise each of the three fields is kept when an array and `[]` otherwise |
| ResumeAnalysis.CoerceToJson | server/index.ts:83-99 | coercing what the server sends gives back the analysis sent |
| ResumeAnalysis.CoerceIdempotent | server/index.ts:83-89 | coercing a coerced result again changes nothing |
| ResumeAnalysis.CoerceNoArrays | server/index.ts:83-89 | without arrays the result is all empty lists |
| Server.Health | server/index.ts:18-23 | `ok` is true and `openaiConfigured` is whether a non-empty key is set |
| Server.JobDescription | server/index.ts:37-40 | a missing `jobDescription` reads as `""` |
| Server.CheckResume | server/index.ts:42-44 | missing iff absent, falsy or white space only; a truthy non-string makes `trim` throw |
| Server.ErrorText | server/index.ts:104 | the error's message, or "Internal Server Error" when empty |
| Server.JsonSpan | server/index.ts:78-81 | none iff there is no `{`, no `}` or the last `}` precedes the first `{`; otherwise the span from the first `{` to the last `}`, which starts with `{` and ends with `}` |
| Server.JsonSpanOf | server/index.ts:78-81 | `pre{mid}post` with no `{` before and no `}` after yields exactly `{mid}` |
| Server.AnalyzeResume | server/index.ts:31-105 | 503 without a key whatever the body, then 400 for a missing resume, 500 for a thrown error, all-empty lists without a span, 500 with the parse error, else the coerced analysis |
| ResumeAnalyzer.CheckFile | src/components/resume/ResumeAnalyzer.tsx:19-41 | type checked first (one of four MIME types), then the size (more than 5 MiB refused, exactly 5 MiB accepted) |
| ResumeAnalyzer.ServerErrorMessage | src/components/resume/ResumeAnalyzer.tsx:111-120 | the body's `error` text when it is a non-empty string; otherwise (unreadable body, no `error`, or a falsy one) `Server error: <status>` |
| ResumeAnalyzer.ReplyOutcome | src/components/resume/ResumeAnalyzer.tsx:111-141 | a failed status reports the server's message; an unreadable body its error; an OK `null` body the error of reading a field of `null`; any other OK body the coerced analysis |
| ResumeAnalyzer.AnalysisArrives | src/components/resume/ResumeAnalyzer.tsx:124-143 | an analysis the server sends arrives unchanged |
| ResumeAnalyzer.ServerErrorShown | src/components/resume/ResumeAnalyzer.tsx:111-120 | an error the server reports is the message shown |
| ResumeAnalyzer.Analyzer.constructor | src/components/resume/ResumeAnalyzer.tsx:11-15 | empty text, not analysing, no analysis, no file, not dragging |
| ResumeAnalyzer.Analyzer.HandleFileUpload | src/components/resume/ResumeAnalyzer.tsx:18-43 | the check's verdict; an accepted file becomes the uploaded file, a refused one changes nothing |
| ResumeAnalyzer.Analyzer.SetResumeText | src/components/resume/ResumeAnalyzer.tsx:46-54 | only the resume text changes |
| ResumeAnalyzer.Analyzer.HandleDragOver | src/components/resume/ResumeAnalyzer.tsx:62-65 | dragging starts, nothing else changes |
| ResumeAnalyzer.Analyzer.HandleDragLeave | src/components/resume/ResumeAnalyzer.tsx:67-70 | dragging stops, nothing else changes |
| ResumeAnalyzer.Analyzer.HandleDrop | src/components/resume/ResumeAnalyzer.tsx:72-80 | dragging stops; the first file, if any, goes through the upload checks |
| ResumeAnalyzer.Analyzer.HandleFileInputChange | src/components/resume/ResumeAnalyzer.tsx:82-87 | the first chosen file, if any, goes through the upload checks; the drag state is unchanged |
| ResumeAnalyzer.Analyzer.HandleAnalyze | src/components/resume/ResumeAnalyzer.tsx:89-159 | a white-space resume is refused with no request; otherwise a rejected request fails with its error's message and a reply decides the outcome; the analysis is stored only on success, and analysing is false afterwards either way |
| ResumeAnalyzer.BlankResumeEnabledButRefused | src/components/resume/ResumeAnalyzer.tsx:250 | the button is enabled for a resume of spaces, which the analysis refuses |
| Signup.SignupPage.constructor | src/pages/Signup.tsx:12 | four empty inputs |
| Signup.SignupPage.HandleChange | src/pages/Signup.tsx:14-17 | only the named input changes |
| Signup.SignupPage.HandleSubmit | src/pages/Signup.tsx:19-32 | empty name, email or password gives "All fields are required." first; then unequal passwords give "Passwords do not match."; otherwise to `/login` |
| Login.LoginPage.constructor | src/pages/Login.tsx:12 | two empty inputs |
| Login.LoginPage.HandleChange | src/pages/Login.tsx:14-17 | only the named input changes |
| Login.LoginPage.HandleSubmit | src/pages/Login.tsx:19-28 | either input empty gives "Email and password are required."; any two non-empty strings go to `/dashboard` |

## Left out

- Rendering is not modelled: markup, CSS classes other than the badge's class strings, toasts, dialogs, icons and the chart drawing.
- Navigation and timers are left out. A submit's navigation is returned as an outcome value, and the add form's 100 ms delay is not modelled.
- The resume page's simulated file reading (a fixed text produced after a delay) is left out. `ResumeAnalyzer.Analyzer.SetResumeText` stands for the moment that text arrives.
- `localStorage` and JSON encoding are left out. Storage is a map holding decoded lists, and encoding followed by decoding is taken to give the list back.
- Corrupt stored data, which throws unguarded in the source, is not representable.
- An empty string stored under either key is not representable either. Both loads treat it as nothing stored: the jobs load seeds the sample data and the Kanban load keeps the empty list.
- Time is handled only in simple terms. Instants are integer milliseconds and days are UTC midnights. Time zones and daylight saving are not modelled, including the local `yyyy-MM-dd` comparison and `addDays`/`setDate`.
- Form date inputs hold the midnight of the chosen day, not its `yyyy-MM-dd` text.
- `localeCompare` is replaced by a fixed lexicographic total order. The proofs use only its order properties.
- `toLowerCase` and `toUpperCase` are ASCII only.
- Numbers in JSON values are integers.
- The network, `fetch`, express, CORS and the OpenAI client are left out. The page's request, the model's completion and `JSON.parse` are parameters, each returning either its result or the message of the error it raised.
- The prompt text sent to the model is not modelled.
- Async ordering and React's effect scheduling are not modelled. State updates are modelled by their net effect, and the Kanban mount is one step that loads and writes.
- Calling a store hook outside its provider is not modelled.
- The filter's `dateRange` field is not modelled, because nothing in the code reads it.
- The status selects of the add and edit forms take a status, not a raw select string. The menus offer only the five statuses.
- `JobsContext.JobsProvider.LoadOrSeed`: the seed list is the provider's `sample` field, built by `SampleData.SampleJobs` at module load, rather than recomputed inside the effect.
- `FilterBar.HandleStatusChange`: a select value that names no status clears the status, where the source would store the raw string. The select offers only "all" and the five names.
- `FilterBar.HandleSortChange`: unknown sort strings parse to no field or direction, where the source would store them as they are.
- `UpcomingReminders.SortByDate`: the contract states order and permutation but not stability. The order among reminders with equal dates is left unspecified.
- `UpcomingReminders.JobRemindersShape`: the reminders' title and description texts are built as in the source but nothing is proved about them. The unused `interview` reminder kind is declared only.
- `AddJobForm.Form.HandleSubmit`: the date input is not `required`, so the source can submit a cleared date and store `dateApplied: ""`, which later breaks the card's date formatting. The model's form always holds a date, so this case is not represented.
- `JobCard.Card.SubmitEdit`: with a cleared date input the source throws at `new Date("").toISOString()`, so the edit is not sent and the dialog stays open. The model's form always holds a date, so it always submits and closes.
- `JobCard.EditedJobFields`, `JobCard.EditReopens`: these describe a card mounted afresh on the edited record. A card that stays mounted keeps its typed, untrimmed form, as `JobCard.Card.SubmitEdit` states.
- `JobCard.LinkText`: lengths count Unicode scalar values, whereas `length` and `substring` count UTF-16 code units. A link with characters outside the Basic Multilingual Plane (such as emoji) is cut earlier in the source, possibly inside a surrogate pair.
- `ResumeAnalyzer.ServerErrorMessage`: a truthy `error` field that is not a string falls back to the status message, where the source would show that value's string form.
- `ResumeAnalysis.Coerce`: the list elements are kept as parsed JSON values, as the source keeps them. The texts of the errors raised when reading `null` and when calling `trim` on a non-string are those of the V8 engine.
- `StatusBadge.StatusConfig`: the switch's five constant rows are expressed by their common pattern (`bg-jobStatus-<status> text-white`, capitalised label). `StatusBadge.BadgeLabels` pins the five labels.
- The analytics page, the layout components and the edit page wrapper only wire props and hold fixed data, so they are not modelled.
