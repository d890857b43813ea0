# Daily reminder dock: a Dafny model

This project models the stateful core of a small desktop widget. The widget is a floating "ball" pinned to a
screen edge. It opens a daily-themed image viewer and a per-day to-do list. Four components are modelled:

- **Task store** (`task_manager.dfy`, module `TaskStore`): the task records of each date, kept in one JSON
  file per date. The directory of files is a map from the date string to that date's task list. The class
  `TaskManager` holds that map and the current date, which is fixed at construction. `AddTask` appends a
  record whose id is the list length plus one. `UpdateTask` patches the first record with the id, using a
  search loop. `DeleteTask` filters out every record with the id. `GetTasks` is a lookup.
- **Dock ball** (`daily_reminder.dfy`, module `Dock`): the window position, the drag state, the hidden and
  fully-hidden flags, the alpha value and the pending Tk timers, all as fields of the class `FloatingBall`.
  Each handler method is specified by a pure transition function on a `DockState` snapshot. The lemmas about
  those functions cover single events and whole event sequences (`Run`). The module also holds the
  image-carousel index arithmetic and the guards that turn a list selection into a task update or delete.
- **Image lookup and cache** (`image_manager.dfy`, module `Images`): the candidate file names of the day,
  the first-existing lookup, the extension filter used when staging images, the cache keyed by path and size
  bound, and the error text shown when nothing loads.
- **Chat transcript** (`chat_exporter.dfy`, module `Chat`): the append-only message history and the text
  it is exported as.

`wrappers.dfy` defines `Option` and `Result`.

Clock readings, the screen size, the pointer position, directory listings and the outcomes of image-library
calls are parameters. Tk timers are pending counters and flags, and "fire" methods run them:

- `hideTimer` is the `on_leave` timer whose id `hide_timer` holds. It is the only one that can be cancelled.
- `strayHides` counts semi-hides that nothing cancels: the one at startup, the one after each release, and an
  `on_leave` timer whose id a second `on_leave` overwrote.
- `pendingFullHides` counts the full-hides that each semi-hide schedules.

Three behaviours of the code are easy to misread; the model follows the code:

- `on_enter`'s docstring (daily_reminder.py:139) says it shows the full ball. The code reveals it only when
  it is fully hidden (daily_reminder.py:143-144).
- `delete_task` filters the list, so it removes every record carrying the id, not just one
  (task_manager.py:140).
- `show_ball` places a right-docked ball at `screen_width - 80`, a constant offset that does not depend on
  the window's width (daily_reminder.py:186).

The id-reuse quirk is reproduced as written: ids are `len(tasks) + 1`, so a delete followed by an add can
repeat an id (`TaskStore.IdRepeatsAfterDelete`). Acting on a selected row then acts on the first row with
that id (`Dock.SelectedRowMayNotBePatched`).

## Model

| member | source | states |
|---|---|---|
| `TaskStore.TaskManager.constructor` | task_manager.py:30-35 | the current date is fixed to the given day; its entry exists afterwards, empty if it was missing, and every other entry is as before |
| `TaskStore.TaskManager.AddTask` | task_manager.py:55-73 | returns the task `{id: old length + 1, content, created_at, completed: false}`; the current date's list becomes the old list with that task appended; no other date changes |
| `TaskStore.Appended` | task_manager.py:59-67 | the new list is one longer, keeps the old list as its prefix, and ends with the new uncompleted task whose id is the old length plus one |
| `TaskStore.AppendedAllIds` | task_manager.py:60-67 | adding several tasks keeps the earlier ones; the k-th added task gets id `old length + k + 1`, its content and timestamp, uncompleted |
| `TaskStore.FreshDayIds` | task_manager.py:60-67 | on an empty day, adding N tasks yields ids 1..N in insertion order with the given contents |
| `TaskStore.TaskManager.GetTasks` | task_manager.py:84-93 | the date defaults to the current one; a date with no entry gives `[]` and no entry is created; otherwise the stored list in order |
| `TaskStore.FirstIndex` | task_manager.py:110-118 | None exactly when no task carries the id; otherwise an index whose task carries the id with no earlier task carrying it |
| `TaskStore.TaskManager.UpdateTask` | task_manager.py:106-124 | returns whether some task of the current date carries the id; the current date's list becomes the first-match patch of the old one; on false the whole store is unchanged |
| `TaskStore.PatchedFrame` | task_manager.py:110-116 | the update keeps length and order and every other task; it keeps every id and timestamp; it sets `completed` and `content` of the first match only where a value was passed |
| `TaskStore.PatchedMissing` | task_manager.py:117-118 | with no task carrying the id, the list is unchanged |
| `TaskStore.PatchedIdempotent` | task_manager.py:110-116 | applying the same update twice equals applying it once |
| `TaskStore.Without` | task_manager.py:139-142 | the filtered list holds only tasks of the old list whose id differs; it keeps every such task; its length equals the old length exactly when no task carried the id, and then it is the old list |
| `TaskStore.WithoutConcat` | task_manager.py:140 | filtering distributes over concatenation, so the survivors keep their relative order |
| `TaskStore.WithoutIdempotent` | task_manager.py:140 | deleting the same id a second time removes nothing more |
| `TaskStore.WithoutDropsExactlyOne` | task_manager.py:139-142 | in a list with ids 1..n, deleting an id in that range removes exactly one task |
| `TaskStore.IdRepeatsAfterDelete` | task_manager.py:60 | with ids 1..n, after deleting an id below n the next added task gets id n, which the surviving last task still carries |
| `TaskStore.TaskManager.DeleteTask` | task_manager.py:135-149 | returns whether some task carried the id; on true the current date's list loses every task with that id; on false nothing is written |
| `TaskStore.AddAddDelete` | task_manager.py:126-149 | two adds on an empty day followed by deleting id 1 leave exactly the second task, with id 2 |
| `Dock.Launch` | daily_reminder.py:74-107 | the ball starts at `(screen_width - 30, screen_height // 2)`, visible at alpha 0.9, not dragging, on the right side (for screens at least 59 px wide), with exactly the startup semi-hide pending and no leave timer or full-hide pending |
| `Dock.SemiHideKeepsSide` | daily_reminder.py:162-168 | on screens at least 79 px wide, the semi-hidden x is on the same side of the middle as the old x |
| `Dock.ShowKeepsSide` | daily_reminder.py:182-188 | on screens at least 159 px wide, the shown x is on the same side of the middle as the old x |
| `Dock.ShowCanSwitchSideOnNarrowScreen` | daily_reminder.py:183-186 | on a 158 px screen, showing a right-docked ball moves it to the left side, so the bound above cannot be lowered |
| `Dock.HideShowRoundTrip` | daily_reminder.py:154-191 | showing after semi-hiding lands where showing alone does, and semi-hiding after showing lands where semi-hiding alone does |
| `Dock.StepKeepsInv` | daily_reminder.py:615-622 | every event (pointer, poll or timer) keeps `fully_hidden ⇒ is_hidden`, with alpha 0 exactly when fully hidden and 0.9 otherwise |
| `Dock.RunKeepsInv` | daily_reminder.py:154-191 | every sequence of events keeps that invariant |
| `Dock.StepKeepsSide` | daily_reminder.py:154-191 | on screens at least 159 px wide, every event other than drag motion keeps the docking side |
| `Dock.RunKeepsSide` | daily_reminder.py:154-191 | a sequence of events without drag motion keeps the docking side: only dragging switches sides |
| `Dock.DragMovesByPointerDelta` | daily_reminder.py:115-134 | after a press at (x0, y0), motion to (x, y) moves the window by (x - x0, y - y0); after the release, motion moves nothing |
| `Dock.LeaveThenEnterCancels` | daily_reminder.py:136-152 | a leave followed by an enter, when no hide was pending, gives back the same state: no position change and nothing left pending |
| `Dock.LeaveThenTimerHides` | daily_reminder.py:146-172 | a leave followed by its timer puts the ball at the semi-hidden x of its side; y is kept, it is hidden, and a full-hide is scheduled |
| `Dock.HideCycleReturns` | daily_reminder.py:615-638 | leave, hide timer, full-hide timer: the ball is fully hidden at alpha 0; then the pointer at an edge brings it back visible at the shown x of its side with the same y |
| `Dock.PollOnlyAtEdge` | daily_reminder.py:624-638 | the poll changes the state only when the ball is fully hidden, not dragged, and the pointer is within 2 px of an edge |
| `Dock.CarouselSteps` | daily_reminder.py:193-203 | for an index in range, next and previous stay in range and undo each other |
| `Dock.SelectedId` | daily_reminder.py:593-613 | an id is chosen exactly when there is a selection whose first row is inside the current list, and it is that row's id |
| `Dock.SelectedRowMayNotBePatched` | daily_reminder.py:593-602 | with two rows sharing an id, completing the second row completes the first one instead |
| `Dock.FloatingBall.constructor` | daily_reminder.py:74-107 | the state is the launch state, the carousel is empty, and the ball keeps the screen size and task store it is given |
| `Dock.FloatingBall.OnClick` | daily_reminder.py:109-121 | dragging starts, the anchor is the press point, and the cancellable hide timer is cancelled |
| `Dock.FloatingBall.OnMove` | daily_reminder.py:123-134 | only while dragging, the position moves by the pointer's offset from the anchor |
| `Dock.FloatingBall.OnRelease` | daily_reminder.py:383-391 | dragging ends and an uncancellable semi-hide is scheduled |
| `Dock.FloatingBall.OnEnter` | daily_reminder.py:136-144 | the cancellable hide timer is cancelled, and the ball is shown only if fully hidden |
| `Dock.FloatingBall.OnLeave` | daily_reminder.py:146-152 | when not dragging, a cancellable semi-hide is scheduled; an earlier pending one becomes uncancellable |
| `Dock.FloatingBall.SemiHideBall` | daily_reminder.py:154-172 | no-op while dragging; otherwise x becomes -40 or `screen_width - 40` by side, y is kept, `is_hidden` is set and a full-hide is scheduled |
| `Dock.FloatingBall.ShowBall` | daily_reminder.py:174-191 | no-op while dragging; otherwise x becomes 0 or `screen_width - 80` by side, y is kept, both hidden flags clear and alpha is 0.9 |
| `Dock.FloatingBall.FullyHideBall` | daily_reminder.py:615-622 | sets `fully_hidden` and alpha 0 only when not dragging and semi-hidden |
| `Dock.FloatingBall.CheckMousePosition` | daily_reminder.py:624-638 | shows the ball only when fully hidden and the pointer x is at most 2 or at least `screen_width - 2` |
| `Dock.FloatingBall.FireHideTimer` | daily_reminder.py:152 | the `on_leave` timer fires: it is no longer pending and the semi-hide runs |
| `Dock.FloatingBall.FireStrayHide` | daily_reminder.py:104 | an uncancellable semi-hide fires (from startup, a release or an overwritten leave timer) |
| `Dock.FloatingBall.FireFullHide` | daily_reminder.py:172 | a full-hide scheduled by a semi-hide fires |
| `Dock.FloatingBall.StartCarousel` | daily_reminder.py:277-279 | the carousel restarts at index 0 over the given number of images; the dock state is untouched |
| `Dock.FloatingBall.ShowPrevImage` | daily_reminder.py:193-197 | the index steps back with wrap-around when there are at least two images; otherwise nothing changes |
| `Dock.FloatingBall.ShowNextImage` | daily_reminder.py:199-203 | the index steps forward with wrap-around when there are at least two images; otherwise nothing changes |
| `Dock.FloatingBall.ToggleTaskStatus` | daily_reminder.py:593-602 | without a valid selection the store is unchanged; otherwise it is the update of the selected row's id with `completed` set |
| `Dock.FloatingBall.DeleteSelectedTask` | daily_reminder.py:604-613 | without a valid selection the store is unchanged; otherwise every task with the selected row's id is removed |
| `Images.MonthDay` | image_manager.py:39 | the day's `MM-DD` text is five characters: two decimal digits reading the month, a dash, two decimal digits reading the day |
| `Images.TodayImageNames` | image_manager.py:37-44 | three candidates in priority order: `MM-DD.png`, then `MM-DD.jpg`, then the default image |
| `Images.CandidatesDistinct` | image_manager.py:37-44 | the three candidates differ from each other, and different days have different dated candidates |
| `Images.ImageFilesIn` | image_manager.py:60-64 | of a listing, exactly the names passing the extension filter are staged |
| `Images.FilterAcceptsCandidates` | image_manager.py:61 | every candidate name passes the filter; the filter ignores case (`.PNG`, `.JpEg`) and rejects other extensions and a bare `png` |
| `Images.FirstPresent` | image_manager.py:72-76 | None exactly when no candidate exists; otherwise an existing candidate with no existing candidate before it |
| `Images.ImageManager.GetImagePath` | image_manager.py:66-76 | the search loop returns the first existing candidate of the day, or None |
| `Images.ImageManager.CopyImagesFrom` | image_manager.py:50-64 | a missing source directory gives the not-found error and copies nothing; otherwise every image file of the source is added under its own name |
| `Images.Load` | image_manager.py:78-111 | an image is returned exactly when a path is, and that path is the first existing candidate; on a cache hit the stored image is returned and the cache is untouched; on a miss the decoded image is returned and stored under (path, size); a failed decode or no candidate gives `(None, None)` and the cache as it was |
| `Images.LoadWithoutCandidate` | image_manager.py:88-90 | with no candidate present the result is `(None, None)` and the cache is untouched |
| `Images.LoadHitIsStable` | image_manager.py:93-106 | after a successful load, loading again with the same size returns the same image and cache, whatever the image library would give |
| `Images.ImageManager.LoadImage` | image_manager.py:78-111 | the method's image, path and new cache are those of `Load` on the old cache |
| `Images.JoinContainsParts` | image_manager.py:126 | every part occurs in the `', '.join` of the parts |
| `Images.LoadErrorMessage` | image_manager.py:124-127 | the load error text names every candidate file |
| `Images.ImageManager.CreatePhotoImage` | image_manager.py:113-133 | when nothing loads: no photo and the error listing all candidates; otherwise the photo, or the photo-creation error with the exception text; the cache is that of `Load` |
| `Images.ImageManager.ClearCache` | image_manager.py:46-48 | the cache is empty |
| `Images.ImageManager.Cleanup` | image_manager.py:135-141 | the cache is empty |
| `Images.ImageManager.constructor` | image_manager.py:17-35 | the directory holds what it held before and the cache starts empty |
| `Chat.ChatExporter.constructor` | chat_exporter.py:15-26 | the history starts empty |
| `Chat.ChatExporter.AddMessage` | chat_exporter.py:28-41 | exactly one record is appended, with sender 用户 for a user message and 系统 otherwise; earlier records are unchanged |
| `Chat.ChatExporter.ExportChat` | chat_exporter.py:43-64 | None exactly when the history is empty or the write fails; otherwise a file named `chat_log_<stamp>.txt` holding the transcript; the history is not modified |
| `Chat.ChatExporter.ClearHistory` | chat_exporter.py:91-93 | the history is empty |
| `Chat.BlocksConcat` | chat_exporter.py:59-60 | the blocks of two histories in sequence are the first's blocks followed by the second's |
| `Chat.TranscriptGrows` | chat_exporter.py:58-60 | adding a record extends the transcript by exactly that record's block |
| `Chat.TranscriptLayout` | chat_exporter.py:58-60 | the transcript starts with the header; each record's block follows the transcript of the records before it |

## Left out

- Tk widget construction, packing, menus, scroll regions, key and wheel bindings and message boxes
  (daily_reminder.py:38-72, 236-342, 435-487, 648-666; chat_exporter.py:66-89): pure user interface.
- The toggle between opening and destroying the theme and task windows (daily_reminder.py:231-234, 430-433):
  it depends on Tk's `winfo_exists`.
- `update_theme_image`, `update_task_list` and the window sizes in `show_theme` (daily_reminder.py:205-220,
  267, 331-337, 581-591): floating-point window sizing and image-library calls.
- The image staging and path resolution of `show_theme` (daily_reminder.py:244-262): it depends on the
  packaged executable's location on disk.
- `get_today_images`, which `show_theme` calls (daily_reminder.py:278): it is not defined in
  image_manager.py. `StartCarousel` takes the number of images as a parameter instead.
- The history window (daily_reminder.py:489-571): `get_history_dates` and `get_tasks_by_date_range` are not
  defined in task_manager.py. The date-range query is not part of this model.
- The `add_task` handler of the dock (daily_reminder.py:573-579): it trims the entry text with `str.strip`
  before calling the task store. Unicode whitespace trimming is not modelled.
- Startup-shortcut management (daily_reminder.py:351-420): COM calls and startup-folder file operations.
- Wall-clock time: timers are pending flags and counters, fired by explicit methods. The 50 ms poll is always
  pending and runs whenever `CheckMousePosition` is called. `show_timer` is never assigned in the source, so
  cancelling it (daily_reminder.py:120-121) does nothing and is not modelled.
- `win32api.GetCursorPos`, the screen size and `datetime.now()`: they are parameters.
- JSON encoding, file reads and writes, directory creation, and I/O exceptions in the task store and chat
  exporter. A failed transcript write is the `writeSucceeds` parameter; the partial file it may leave is not
  modelled.
- Opening and thumbnailing images and making Tk photos (image_manager.py:99-103, 130): their outcomes are
  parameters, and images and photos are opaque handles.
- Images.ImageManager.CopyImagesFrom: a failure of `shutil.copy2` part-way through the loop is not modelled,
  and neither is a source path that exists but is not a directory.
- Images.IsImageFile: `str.lower` is modelled on ASCII letters only.
- Images.FirstPresent: a file exists when its name is in the directory set, compared exactly. On Windows,
  where the program runs, `os.path.exists` ignores case, so a staged `08-01.PNG` answers a lookup for
  `08-01.png`; the model does not find it.
- Images.Load: the cache key is the pair (path, size bound), not the source's formatted string
  `f"{path}_{size}"`. Paths are file names inside the images directory; that directory's prefix is the same
  for every path.
- build.py: packaging.
