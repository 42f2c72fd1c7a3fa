# Incident viewer core, modelled in Dafny

The incident viewer is a browser dashboard for AI safety incidents. It keeps
an in-memory list of incident records and shows them filtered by severity
and sorted by reported time. A form creates new records, and two charts
summarise the list: a tally per severity and a count per month.

This project models that logic and proves what the code promises about it:

- `IncidentTypes` (`incident.dfy`): the record, the draft without an id, and
  the closed enumerations for severity, sort order, category and status,
  each with its source spelling and a parser that accepts exactly those
  spellings.
- `MockData` (`mock_incidents.dfy`): the five seed records.
- `Index` (`index.dfy`): the page state as a class `Dashboard` with the
  fields `incidents`, `selectedSeverity` and `sortOrder`. The view is a pure
  function `View`: a filter, then a stable sort by time. Creating a record
  gives it `max(ids) + 1` and puts it first. The proofs cover filter
  soundness and completeness, sortedness, stability, and the uniqueness of
  the stable order. They also cover id freshness and the seed scenarios.
- `IncidentCharts` (`incident_charts.dfy`): the per-severity tally and the
  per-label grouping. Both are loops that rebuild a map of counts one
  record at a time; the source's in-place `++` is a map update. The month label is an arbitrary function `labelOf`.
- `NewIncidentForm` (`new_incident_form.dfy`): the form as a class with
  `title`, `description` and `severity`. Its submit handler validates the
  fields, emits a draft and then resets them.
- `JsString` (`js_string.dfy`): the ECMAScript `trim` and `toLowerCase`
  that the form and the card rely on.
- `IncidentCard` (`incident_card.dfy`): the case-insensitive mapping from a
  severity string to a badge class.

Timestamps are integers: the milliseconds since the epoch that `getTime()`
returns for each ISO string. Each seed instant is the epoch-millisecond value of the ISO string
in the comment beside it (mock_incidents.dfy). The
current time is a parameter of the submit handler.

Line 28 of src/pages/Index.tsx computes `Math.max(...ids) + 1`, which is
`-Infinity` on an empty list. The list starts from the five seed records and
only grows, so `NextId` requires a non-empty list and `Dashboard.Valid` keeps
the list non-empty.

## Model

| member | source | states |
|---|---|---|
| `IncidentTypes.WithId` | src/pages/Index.tsx:26-29 | the spread `{...draft, id}` is a record with exactly that id whose other fields are the draft's |
| `IncidentTypes.DraftRoundTrip` | src/components/NewIncidentForm.tsx:18 | a record is its `Omit<Incident, 'id'>` plus its id: taking the id off and putting it back gives the record |
| `IncidentTypes.ParseSeverity` | src/types/incident.ts:2 | `Severity` accepts exactly "Low", "Medium", "High", and each accepted string is the name of the value it yields |
| `IncidentTypes.SeverityNameRoundTrip` | src/types/incident.ts:2 | each severity's name parses back to that severity, so the three names are distinct |
| `IncidentTypes.ParseSortOrder` | src/types/incident.ts:18 | `SortOrder` accepts exactly "newest" and "oldest" |
| `IncidentTypes.ParseCategory` | src/types/incident.ts:10 | `category` accepts exactly the four category strings |
| `IncidentTypes.ParseStatus` | src/types/incident.ts:14 | `status` accepts exactly "Open", "Resolved", "In Progress" |
| `IncidentTypes.NamesRoundTrip` | src/types/incident.ts:10-18 | every sort order, category and status name parses back to its own value |
| `MockData.SeedShape` | src/data/mockIncidents.ts:4-40 | the seed has five records with ids 1 to 5, pairwise distinct. Their severities are Medium, High, Low, High, Low. None has a category or status. Their instants are ordered 1 < 3 < 5 < 2 < 4 |
| `Index.Filter` | src/pages/Index.tsx:15-18 | soundness: every kept record passes the severity filter; with "all" the list is unchanged; the result is no longer than the input |
| `Index.Passes` | src/pages/Index.tsx:16-18 | the filter callback: "all" keeps every record, a severity keeps the records of that severity. No contract of its own; `Index.Filter` and `Index.FilterCount` state what selecting by it gives |
| `Index.Compare` | src/pages/Index.tsx:19-22 | the comparator `dateB - dateA` for "newest" and `dateA - dateB` for "oldest". No contract of its own; `Index.Sorted` is defined by it and `Index.SortByTimeSorts` orders by it |
| `Index.Insert` | src/pages/Index.tsx:19-23 | one step of the stable sort: a record goes in front of the first record it does not come after. No contract of its own; `Index.InsertMultiset`, `Index.InsertSorted` and `Index.InsertAtTime` state it |
| `Index.SortByTime` | src/pages/Index.tsx:19-23 | `Array.prototype.sort` with the comparator, as a stable insertion sort. No contract of its own; `Index.SortByTimeSorts`, `Index.SortStable` and `Index.SortUnique` state that it is the one sorted, stable permutation |
| `Index.View` | src/pages/Index.tsx:15-23 | `filteredAndSortedIncidents`: the filter, then the sort. No contract of its own; `Index.ViewContents`, `Index.ViewSorted`, `Index.ViewStable` and `Index.ViewIsUnique` state it |
| `Index.FilterCount` | src/pages/Index.tsx:15-18 | completeness: a passing record appears in the result as many times as in the list, and a failing one does not appear |
| `Index.FilterAppend` | src/pages/Index.tsx:15-18 | the filter is a selection in order: filtering a concatenation is concatenating the filtered parts |
| `Index.SortByTimeSorts` | src/pages/Index.tsx:19-23 | the sort's result is a permutation of its input, and every pair of its elements is in comparator order |
| `Index.SortStable` | src/pages/Index.tsx:19-23 | stability as ECMA-262 requires it: for every instant, the records with that instant keep their input order |
| `Index.SortUnique` | src/pages/Index.tsx:19-23 | two sorted lists that agree on the records of every instant are equal, so every stable sort with this comparator returns this result |
| `Index.SortIdempotent` | src/pages/Index.tsx:19-23 | sorting an already sorted view changes nothing |
| `Index.ViewContents` | src/pages/Index.tsx:15-19 | the view holds exactly the stored records that pass the filter, each as often as stored; with "all" it is as long as the stored list |
| `Index.ViewSorted` | src/pages/Index.tsx:19-23 | with "newest", adjacent view elements have non-increasing time; with "oldest", non-decreasing |
| `Index.ViewStable` | src/pages/Index.tsx:15-23 | for every instant, the view's records at that instant are the stored records at that instant that pass the filter, in stored order |
| `Index.ViewIsUnique` | src/pages/Index.tsx:15-23 | any list that is sorted and agrees with the filtered stored list on every instant is the view |
| `Index.MaxId` | src/pages/Index.tsx:28 | `Math.max(...ids)` on a non-empty list is an id of the list and no id exceeds it |
| `Index.NextId` | src/pages/Index.tsx:28 | the new id is one more than an existing id and strictly greater than every existing id |
| `Index.AddKeepsIdsDistinct` | src/pages/Index.tsx:28-30 | prepending a record with the new id to a list of distinct ids keeps the ids distinct |
| `Index.SeedHighNewest` | src/pages/Index.tsx:15-23 | the seed filtered to High and sorted newest first is ids 4, 2 |
| `Index.SeedOldest` | src/pages/Index.tsx:19-23 | the whole seed sorted oldest first is ids 1, 3, 5, 2, 4 |
| `Index.SeedNewest` | src/pages/Index.tsx:19-23 | the whole seed sorted newest first is ids 4, 2, 5, 3, 1 |
| `Index.SeedNextId` | src/pages/Index.tsx:28 | the first record created on top of the seed gets id 6 |
| `Index.Dashboard.constructor` | src/pages/Index.tsx:11-13 | the page starts with the seed list, filter "all", order "newest", and a non-empty list of distinct ids |
| `Index.Dashboard.Displayed` | src/pages/Index.tsx:15-23 | the rendered list is computed from the state without changing it; every shown record is stored and passes the filter, in the selected order |
| `Index.Dashboard.SetSeverity` | src/pages/Index.tsx:40-45 | changing the filter changes only the filter |
| `Index.Dashboard.SetSortOrder` | src/pages/Index.tsx:40-45 | changing the order changes only the order |
| `Index.Dashboard.AddIncident` | src/pages/Index.tsx:25-31 | the new record, with id max + 1, is at index 0 and the tail is the old list. The length grows by one, the new id exceeds every old id, ids stay distinct, and the filter and order are unchanged |
| `Index.Dashboard.SubmitForm` | src/pages/Index.tsx:59 | a rejected form submission leaves the list and the form unchanged. An accepted one prepends the form's draft with the next id and clears the form |
| `IncidentCharts.SeverityData` | src/components/IncidentCharts.tsx:18-34 | three entries, in the order Low, Medium, High, with the chart's colours. Each value is the number of records of that severity, and the three values sum to the number of records |
| `IncidentCharts.CountOf` | src/components/IncidentCharts.tsx:25-27 | the tally of one severity. No contract of its own; `IncidentCharts.CountOfIsFilterLength` proves it equals the length of that severity's filter |
| `IncidentCharts.LabelCount` | src/components/IncidentCharts.tsx:40-48 | the number of records with a given month label. No contract of its own; `IncidentCharts.LabelsAreTheUsedOnes` and `IncidentCharts.LabelCountsSum` state it |
| `IncidentCharts.Labels` | src/components/IncidentCharts.tsx:40-48 | the keys of `months` in insertion order, that is, each label at its first occurrence. No contract of its own; `IncidentCharts.LabelsDistinct` and `IncidentCharts.LabelsAreTheUsedOnes` state it |
| `IncidentCharts.CountsPartition` | src/components/IncidentCharts.tsx:19-27 | Low + Medium + High equals the number of records |
| `IncidentCharts.CountOfIsFilterLength` | src/components/IncidentCharts.tsx:25-27 | a severity's tally equals the length of the list the severity filter would show |
| `IncidentCharts.AllZeroIffEmpty` | src/components/IncidentCharts.tsx:19-23 | all three tallies are 0 exactly when the list is empty |
| `IncidentCharts.TimeData` | src/components/IncidentCharts.tsx:36-53 | one entry per label, in first-occurrence order, each with the number of records carrying that label. No count is 0, the labels are pairwise distinct, the counts sum to the number of records, and an empty list gives no entries |
| `IncidentCharts.CountByLabel` | src/components/IncidentCharts.tsx:38-49 | the loop leaves one dictionary key per label met, listed in first-occurrence order. Each key maps to the positive number of records carrying that label |
| `IncidentCharts.Entries` | src/components/IncidentCharts.tsx:52-53 | `Object.entries(...).map(...)` gives one entry per key, in key order, carrying that key's count |
| `IncidentCharts.LabelsDistinct` | src/components/IncidentCharts.tsx:38-49 | the keys of the month dictionary are pairwise distinct |
| `IncidentCharts.LabelsAreTheUsedOnes` | src/components/IncidentCharts.tsx:40-48 | a label is a key exactly when its count is positive, which is exactly when some record carries it |
| `IncidentCharts.LabelCountsSum` | src/components/IncidentCharts.tsx:38-49 | the counts of all keys sum to the number of records |
| `JsString.Trim` | src/components/NewIncidentForm.tsx:30 | `trim` returns a slice of its input that neither starts nor ends with white space, and only white space was cut off either side |
| `JsString.TrimEmptyIffBlank` | src/components/NewIncidentForm.tsx:30 | the trimmed string is empty exactly when the input is empty or only white space |
| `JsString.ToLower` | src/components/IncidentCard.tsx:14 | `toLowerCase` on the ASCII letters (see "## Left out"). No contract of its own; `JsString.ToLowerMatchesCaseVariants` states what `IncidentCard.SeverityColor` relies on |
| `JsString.ToLowerMatchesCaseVariants` | src/components/IncidentCard.tsx:14 | a string lower-cases to a lower-case word exactly when it is that word with some letters capitalised |
| `NewIncidentForm.Rejects` | src/components/NewIncidentForm.tsx:30 | the guard `!title.trim() \|\| !description.trim()`. No contract of its own; `NewIncidentForm.RejectsIffBlank` states it |
| `NewIncidentForm.RejectsIffBlank` | src/components/NewIncidentForm.tsx:30-37 | a submission is rejected exactly when the title or the description is empty or only white space |
| `NewIncidentForm.Form.constructor` | src/components/NewIncidentForm.tsx:23-25 | the form starts with title "", description "", severity Low |
| `NewIncidentForm.Form.SetTitle` | src/components/NewIncidentForm.tsx:62-67 | the title input changes only the title |
| `NewIncidentForm.Form.SetDescription` | src/components/NewIncidentForm.tsx:70-75 | the description input changes only the description |
| `NewIncidentForm.Form.SetSeverity` | src/components/NewIncidentForm.tsx:78 | the severity selector changes only the severity |
| `NewIncidentForm.Form.HandleSubmit` | src/components/NewIncidentForm.tsx:27-55 | if the trimmed title or description is empty, nothing is emitted and the fields are unchanged. Otherwise exactly one draft is emitted: no id, the untrimmed title and description, the selected severity, the current time, no optional field. The fields then reset to "", "", Low |
| `IncidentCard.SeverityColor` | src/components/IncidentCard.tsx:13-24 | the result is one of the four classes. Case variants of "low", "medium" and "high" get their severity class, and every other string gets gray |
| `IncidentCard.SeverityNeverGray` | src/components/IncidentCard.tsx:13-24 | each value of `Severity` gets its own severity class, never gray |

## Left out

- Rendering is not modelled: JSX, animation, the chart library, the UI components, toast notices, and the card's expand toggle.
- The navigation bar and the filter and sort controls are not modelled. The controls only fix the option sets, which the datatypes `SeverityFilter` and `SortOrder` capture.
- Date parsing and formatting are not modelled (`new Date`, `getTime`, `toISOString`, `toLocaleString`, `format`), because they depend on the host and the locale. Timestamps are integers, the month label is the parameter `labelOf`, and the current time is a parameter.
- `IncidentCharts.TimeData`: the final chronological sort of the month labels (src/components/IncidentCharts.tsx:54-58) is not modelled. It parses strings like "Mar 2025" with `new Date`, and that result is implementation-defined. The model's entries are in the order the dictionary received its keys, which is the order `Object.entries` gives before the sort.
- `IncidentCharts.TimeData`: every label is assumed to be an ordinary dictionary key. The model does not capture what happens when a label is the name of an `Object.prototype` property, or a canonical array index (which `Object.entries` lists first). Real month labels are neither.
- `Index.NextId`: the empty list, where `Math.max()` is `-Infinity`, is excluded by a precondition. The page's list is never empty. Ids are unbounded integers rather than IEEE doubles.
- `Index.SortByTimeSorts`: invalid timestamps are not modelled. For those, `getTime()` returns NaN and the comparator's result is NaN. Every timestamp is an integer here.
- `JsString.ToLower`: only ASCII letters are lower-cased. Full Unicode case mapping is not modelled. No other character lower-cases to a letter of "low", "medium" or "high", so `IncidentCard.SeverityColor` still has the source's outcome for every string.
- `JsString.Trim`: it works on code points, while JavaScript strings are UTF-16 code units. Every white-space character lies in the Basic Multilingual Plane, so the result is the same.
- The `ChartView` and `ChartType` types (src/types/incident.ts:20-22) are not modelled, because no core code uses them.
