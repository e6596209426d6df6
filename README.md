# Task tracker store and router, modelled in Dafny

The Go server in `main.go` keeps one process-wide `TaskManager`. It holds an ordered
slice of `Task` records and a `NextID` counter. Two HTTP handlers read and change it.
`tasksHandler` (`/api/tasks`) lists tasks on GET and creates one on POST.
`taskHandler` (`/api/tasks/…`) finds the ID in the path, then toggles completion,
replaces a task or deletes one. This project models that store and that routing.

- `Wrappers`: `Option`, standing in for the nullable `*time.Time` and for failed lookups.
- `Tasks`: the `Task` record and the per-record rules. `Created` stamps a new task,
  `Toggled` flips completion, and `Replaced` applies the three-way completion-stamp rule
  of a PUT. `StampMatches` is the invariant "a completion stamp is present exactly when
  the task is completed".
- `TaskTable`: the store as a value (`Table`). It has the ID invariants (`Consistent`:
  every ID is below `NextID`, and no ID appears twice), the first-match lookup
  (`FirstIndex`), the splice (`Removed`), the seed contents (`Seed`), and the lemmas that
  each kind of update keeps the invariants.
- `Store`: the class `TaskManager`, with fields `tasks` and `nextId` that its methods
  update in place. `Find` is the `for … range` scan as a loop. `Create`, `Toggle`,
  `Replace` and `Delete` state the new fields in terms of the `Tasks`/`TaskTable`
  functions and keep `Valid()`.
- `Decimal`: `strconv.Atoi`'s syntax (an optional sign, then at least one digit) and its
  partner `Itoa`, which renders an ID the way the page's script does when it builds
  request paths. The two are related by a round-trip lemma.
- `Routing`: `Classify`, the path handling at the top of `taskHandler`, which returns a
  `Route`.
- `Api`: `ServeCollection` and `ServeItem` are functions from the table before a request
  to the table after it plus the response. Lemmas about them cover invariants, failures
  that change nothing, exactly-when conditions for 404 and 400, toggle-twice, in-place
  replace, delete-then-404, and the seeded sessions. The methods `TasksHandler` and
  `TaskHandler` run the same requests on a `TaskManager` object, and are proved equal
  to the functions.

Two behaviours of the code are worth stating outright:

- Created tasks can break the store invariant "`completed_at` is present iff `completed`".
  The code overwrites only `ID` and `CreatedAt` on a new task, so `completed` and
  `completed_at` come from the body unchanged. The page's add form does send `completed`
  (main.go:780-787). `Tasks.CreatedMayBreakStamp` shows a created task that is completed
  without a stamp, and `Tasks.CreatedStampIff` gives the exact condition.
- Methods the handlers do not serve get an implicit 200 with an empty body, because the
  code writes nothing for them. That is `Response(OK, Empty)`.

## Model

| member | source | states |
|---|---|---|
| `Tasks.Created` | main.go:840-841 | a new task has the given ID and creation time; text, `completed` and `completedAt` are the body's, unchanged |
| `Tasks.Toggled` | main.go:872-878 | `completed` is flipped; the stamp is present iff now completed, and it is `now` if so; ID, creation time and text unchanged |
| `Tasks.Replaced` | main.go:905-914 | the result has the path ID and the stored creation time, plus the body's text and `completed`; the stamp is `now` on false→true, absent when not completed, and kept on true→true; a consistent stamp stays consistent |
| `Tasks.ToggledTwice` | main.go:872-878 | two toggles restore `completed`; an open, consistent task comes back exactly; a completed one comes back with the second instant as its stamp |
| `Tasks.CreatedMayBreakStamp` | main.go:834-843 | a body that is completed but has no stamp is stored as completed without a stamp |
| `Tasks.CreatedStampIff` | main.go:840-841 | a created task satisfies the stamp invariant iff its body does |
| `TaskTable.FirstIndex` | main.go:870-871 | returns the smallest index holding the ID, or `None` exactly when no stored task has it |
| `TaskTable.Removed` | main.go:925 | the length drops by one; entries before `i` stay where they are; entries after it shift down by one, in order |
| `TaskTable.FirstIndexAfterUpdate` | main.go:872-879 | rewriting an entry under its own ID does not change any lookup |
| `TaskTable.AppendKeepsConsistent` | main.go:840-843 | appending a task under `NextID` and then incrementing keeps IDs below the counter and distinct; the new ID is above every stored ID and is not already stored |
| `TaskTable.UpdateKeepsConsistent` | main.go:915 | rewriting an entry under its own ID keeps the ID invariants |
| `TaskTable.RemoveKeepsConsistent` | main.go:925 | splicing out an entry keeps the ID invariants, and that ID is then no longer stored |
| `TaskTable.UpdateKeepsStamps` | main.go:872-878 | rewriting an entry by a stamp-consistent task keeps every stamp consistent |
| `TaskTable.RemoveKeepsStamps` | main.go:925 | splicing out an entry keeps every stamp consistent |
| `TaskTable.AppendKeepsStamps` | main.go:843 | after appending, every stamp is consistent iff the appended task's stamp is |
| `TaskTable.Seed` | main.go:37-123 | the seed has eight open tasks with IDs 1 to 8 in order and `NextID` 9; it satisfies the ID and stamp invariants |
| `TaskTable.SeedTaskAt` | main.go:38-119 | seed entry `k` has ID `k + 1`, is not completed and has no stamp |
| `Store.TaskManager.constructor` | main.go:31-34 | the global starts with no tasks and `NextID` 1, which satisfies the invariant |
| `Store.TaskManager.InitializeTasks` | main.go:121-122 | the fields become the seed table, with the invariants holding |
| `Store.TaskManager.Find` | main.go:870-871 | the scan returns exactly the first index whose ID matches, or `None` |
| `Store.TaskManager.Create` | main.go:840-843 | stores `Created(body, old NextID, now)` at the end; `NextID` goes up by exactly 1; earlier entries are unchanged; the invariant is kept |
| `Store.TaskManager.Toggle` | main.go:870-883 | when found, only the first matching entry changes, to its toggled form; when not found, nothing changes and the result is `None`; `NextID` never changes |
| `Store.TaskManager.Replace` | main.go:903-920 | when found, the first matching entry is replaced in place by `Replaced(...)` and the length is unchanged; when not found, nothing changes; `NextID` never changes |
| `Store.TaskManager.Delete` | main.go:923-930 | when found, exactly the first matching entry is spliced out; when not found, nothing changes; `NextID` never changes |
| `Decimal.Atoi` | main.go:889 | parses exactly the texts made of an optional sign and one or more digits; a negative result needs a leading `-` |
| `Decimal.NatDigits` | main.go:741 | the rendering of a natural number is a non-empty run of digits |
| `Decimal.Itoa` | main.go:741 | the rendering of an integer is non-empty, ends in a digit, and holds only digits and `-` |
| `Decimal.AtoiItoa` | main.go:889 | a rendered integer parses back to itself |
| `Decimal.DigitsValueLeadingZero` | main.go:889 | a leading zero keeps a digit run a digit run, with the same value |
| `Decimal.AtoiLeadingZero` | main.go:889 | every digit run parses to the same ID with a leading zero added |
| `Decimal.AtoiPlusSign` | main.go:889 | every digit run parses to the same ID with a `+` sign added |
| `Decimal.AtoiLenient` | main.go:863 | leading zeros and a `+` sign are accepted; the empty text, a bare sign, trailing letters and leading spaces are rejected |
| `Routing.Classify` | main.go:853-893 | the empty remainder is `MissingId`; a toggle route means the path is `/api/tasks/` + ID text + `/toggle` with a remainder longer than 7, and the ID text parses to the route's ID; an item route means the whole remainder parses to the ID |
| `Routing.ClassifyToggleIff` | main.go:861-867 | `{s}/toggle` is a toggle of `n` iff `s` parses to `n`; an `s` that does not parse gives 400 |
| `Routing.ClassifyItemIff` | main.go:889-893 | `{s}` is an item route for `n` iff `s` parses to `n` |
| `Routing.TogglePath` | main.go:741 | the page's toggle path for an ID lies under `/api/tasks/`, and its remainder is the rendered ID followed by `/toggle` |
| `Routing.IdPath` | main.go:791 | the page's item path for an ID lies under `/api/tasks/`, and its remainder is the rendered ID |
| `Routing.ClassifyTogglePath` | main.go:741 | the toggle path the page builds for an ID routes to toggling that ID |
| `Routing.ClassifyIdPath` | main.go:791 | the item path the page builds for an ID routes to that ID |
| `Routing.ClassifyBareToggle` | main.go:861-867 | the remainder `/toggle` alone is an invalid ID (400) |
| `Api.ServeCollection` | main.go:829-846 | the old tasks stay a prefix of the table; at most one task is added, and `NextID` rises by exactly the number of tasks added |
| `Api.ServeItem` | main.go:853-931 | `NextID` never changes; the length stays the same or drops by one |
| `Api.ServeCollectionInvariants` | main.go:829-846 | every collection request keeps the ID invariants; a create keeps the stamp invariant when its body satisfies it |
| `Api.ServeItemInvariants` | main.go:853-931 | every item request keeps both the ID invariants and the stamp invariant |
| `Api.ServeCollectionFailuresChangeNothing` | main.go:829-846 | a 400, a GET or an unhandled method leaves the table unchanged; the table changes iff the request is a POST with a decodable body |
| `Api.ServeItemFailuresChangeNothing` | main.go:855-931 | a 400, a 404 or an unhandled method leaves the table unchanged |
| `Api.NotFoundIff` | main.go:869-930 | 404 iff the request is a POST toggle, a DELETE, or a decodable PUT, and no stored task has the ID |
| `Api.BadRequestIff` | main.go:855-901 | 400 iff the ID is missing or not an integer, or the request is a PUT with an undecodable body; this is decided before any lookup |
| `Api.CreateAppends` | main.go:840-845 | a create returns and appends the body under the old `NextID`, with `now` as creation time and the body's completion fields; the new ID is above every stored ID |
| `Api.ToggleTwice` | main.go:869-882 | two toggle requests on one ID keep the length and `NextID`, restore every `completed` flag, leave every entry but the first match exactly as it was, and restore an open, consistent match exactly |
| `Api.ReplaceInPlace` | main.go:903-917 | a PUT on a stored ID rewrites that one entry in place, keeping its ID and creation time, and returns it; every other entry and the length are unchanged |
| `Api.DeleteOnce` | main.go:922-930 | a DELETE on a stored ID answers 204 and splices out its first entry, after which the ID is gone; a second DELETE answers 404 and changes nothing |
| `Api.SeededToggle` | main.go:869-882 | on the seed, toggling task 1 gives a completed task stamped with `now`; toggling it again gives an open task with no stamp, and the seed is restored |
| `Api.SeededCreateReplaceDelete` | main.go:833-930 | on the seed, a create gets ID 9; a completing PUT stamps it and keeps ID 9 and its creation time; a DELETE gives 204 and then 404 |
| `Api.TasksHandler` | main.go:826-847 | on the store object, the new fields and the response are those of `ServeCollection` on the old fields; `Valid()` is kept |
| `Api.TaskHandler` | main.go:849-932 | on the store object, the new fields and the response are those of `ServeItem` on the old fields; `Valid()` is kept |

## Left out

- `homeHandler` and the embedded HTML, CSS and script (main.go:141-824): user interface.
  The client-side rendering, filters, statistics and forms are not modelled. The one part
  of the script that is modelled is how it builds request paths from an ID (main.go:741,
  main.go:791), as `Decimal.Itoa`, `Routing.TogglePath` and `Routing.IdPath`.
- Route registration, the static file server, `ListenAndServe` and the startup banner
  (main.go:125-139): I/O plumbing. The model starts from the path `taskHandler` receives,
  so `Routing.IsItemPath` is that handler's precondition. `ServeMux` path cleaning and
  redirects are not modelled.
- JSON encoding and decoding: a request body is modelled as a decoded `Task` or the
  decoder's error text, and a response as a status and a payload value. Defaults for
  missing fields, headers, and the trailing newline that `http.Error` and the encoder
  write are not modelled.
- `time.Now()`: passed in as the parameter `now`. No order between instants is assumed.
  The seed uses one instant for all eight tasks, while the source reads the clock once
  per seed task.
- Concurrency: the global is unguarded, and each request is modelled as one sequential
  step. Go's splice shifts entries inside the shared backing array; the model uses a
  sequence value, so that aliasing is not modelled.
- `Decimal.Atoi`: does not model the range error `strconv.Atoi` raises for values outside
  a 64-bit `int`. Any digit run parses, to an unbounded integer.
- `Decimal.Itoa`: matches the script's rendering of an ID only for safe integers
  (|id| < 2^53). The page holds IDs as JavaScript numbers parsed from JSON, so a larger ID
  may be rounded, and one of 1e21 or more is written in exponent form. For such IDs the
  page requests a different path than `Routing.TogglePath` or `Routing.IdPath`.
- `Store.TaskManager.Create`: does not model the wrap-around of the 64-bit `NextID++`.
  The counter is unbounded.
