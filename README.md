# scylla: download bookkeeping and terminal progress display, in Dafny

scylla downloads a list of URLs concurrently and draws one progress bar per
download in a shared region of the terminal. This project models the two
sequential cores under its asyncio and terminal plumbing, and proves
properties of them:

- **The progress display** (`scylla/progress.py`). `PrintCoordinator` keeps an
  insertion-ordered dictionary from name to line text and a separate line
  counter `_len`. It redraws the region by writing `_len` cursor-up escapes
  and then the stored lines. The terminal is modelled as the sequence of
  tokens written to it: `CursorUp` or `Line(text)`. Around it sit
  `human_readable` (unit scaling by 1024), `set_longest` (the running label
  width) and the layout of a `ProgressBar` line (a 50-cell bar with a `>`
  beak and a padded label).
- **The download bookkeeping** (`scylla/downloader.py`). It covers the
  per-chunk accounting in `Download.start`, the state of a `Downloader`
  (errors, tasks, counters and the done queue), and `GraphicDownloader`'s
  map from name to progress bar.

Layout:

- `text.dfy`: module `Text`. Python's string repetition and the decimal
  rendering of an `int`.
- `arith.dfy`: module `Arithmetic`. Facts about multiplication and division.
- `progress_format.dfy`: module `ProgressFormat`. `human_readable`, the
  `set_longest` value, the label and the bar layout.
- `print_coordinator.dfy`: module `PrintCoordination`. The display state, one
  step function per coordinator operation, their lemmas, and the class
  `PrintCoordinator`.
- `progress_bars.dfy`: module `ProgressBars`. `LONGEST_PACKAGE_LEN` as a
  `LabelWidth` object, and the class `ProgressBar`.
- `download.dfy`: module `Download`. A constructed `Download`, its events and
  `Download.start`.
- `downloaders.dfy`: module `Downloaders`. The classes `Downloader` and
  `GraphicDownloader`.

Three loops are proved against pure definitions: `HumanReadable` against
the first-fit unit `UnitIndex`, `Download.Start` against `ReportAfter`, and
`PrintLines` against `Lines`. The coordinator's three operations are first
defined as step functions on a `Display` value (`RegisterStep`, `PrintStep`,
`UnregisterStep`). The class methods update their fields in place, and are
proved to produce exactly the state and output of those steps. The central
invariant is `_len == len(_printers)`, called `Balanced`. From a balanced
state, `register` keeps it exactly when the name is new and `print` keeps it
exactly when the name is stored. `unregister` always keeps it, because on a
name that is not stored it changes nothing. When the caller keeps to those
preconditions (`register` a new name, `print` and `unregister` a stored
one), every redraw prints as many lines as it moved up. Over any series of
such calls the only surplus lines are the blank lines that `register`
prints (`RunStaysBalanced`). Outside them the display drifts: `print` on a
name that is not stored prints one line more than it moved up
(`PrintAbsentOverprints`). `unregister` on such a name moves the cursor up
`_len` lines and prints nothing (`UnregisterAbsentDrifts`).

The event loop is replaced by the caller. The transitions are `AdmitNext`,
`WaitUntilNext`, `ErrorCb` and `DoneCb`. Each is atomic, and the driver of
the model picks which one fires next. `ScheduleDownload` is not a
transition. It is only a step inside `AdmitNext`, just as
`schedule_download` is only called from the admission loop
(`scylla/downloader.py:113`). From a valid state it leaves `_concurrent`
one short, and the increment that follows restores the invariant.

The preconditions carry what the code guarantees about the order of
events:

- the admission loop takes the URLs in order, at most once each;
- it does not take the next URL while it is suspended waiting for a
  finished download (the ghost flag `waiting`, set from the loop's test
  and cleared when `WaitUntilNext` takes a name);
- `_done_cb` fires only for a task that `schedule_download` started and
  that has not finished.

The ghost multiset `running` holds the names of the started tasks not yet
done, one copy per task. `failed` counts the URLs whose `Download` could
not be constructed. `Downloader.Valid` is kept by every transition. It
says:

- each admitted URL counts as running or as handled (`_concurrent +
  _handled` equals the number of admission-loop iterations);
- `_concurrent` is the number of running tasks plus the failed
  constructions;
- each handled download has put its name on the done queue.

From it, `FailedNeverAllHandled` proves that one failed construction keeps
the final polling loop from ever exiting.

The model follows the code, including these details:

- Every iteration of the admission loop increments `_concurrent`
  (`scylla/downloader.py:113-114`). A URL whose `Download` cannot be
  constructed still takes a slot, and no task will ever hand it back.
- Construction fails only when `urlparse` raises `ValueError`. A URL with no
  path segment gets the name `""` and a task.
- The error record for a URL that cannot be parsed is filed under the URL,
  not under a derived name (`scylla/downloader.py:129`).
- `register` prints one blank line. It does not redraw the region.
- `unregister` prints the removed line and then the remaining ones. That
  makes as many lines as it moved up, so the removed line goes to the
  scrollback.
- `human_readable` picks the first (smallest) unit in which the value is
  below 10240.
- `_done_cb` puts the name on the queue and moves both counters before
  `_tasks.pop(name)`. So a second completion under the same name changes the
  counters and then raises `KeyError`, and `report_done_cb` is not called.
- `unregister` on a name that is not stored writes its cursor-ups before
  the lookup raises.
- `_len` can go negative, for example after `print` on a new name followed
  by `unregister`. A negative count writes no cursor-ups, as a Python string
  times a negative number is empty.

## Model

| member | source | states |
|---|---|---|
| ProgressFormat.HumanReadable | scylla/progress.py:14-19 | The loop returns the decimal of `n // 1024^k` followed by unit k. Here k is the first of B, K, M, G, T whose scaled value is below 10240. If there is none, it returns `n // 1024^5` followed by PB. |
| ProgressFormat.UnitIndex | scylla/progress.py:15-18 | The chosen unit index is at most 5. The value fits below 10240 in it unless it is PB. It fits in no earlier unit. |
| ProgressFormat.UnitIndexFrom | scylla/progress.py:15-18 | Searching from unit k finds the first unit at or after k that the value fits in, or 5. |
| ProgressFormat.HumanReadableShown | scylla/progress.py:14-19 | For n ≥ 0 the shown number is non-negative and below 10240 unless the unit is PB. Once scaled at least once, it is at least 10. |
| ProgressFormat.HumanReadableBytes | scylla/progress.py:16-17 | A value below 10240 is printed unscaled, with unit B. |
| ProgressFormat.Longer | scylla/progress.py:8-11 | The new label width covers both the old width and the name, and is one of the two. |
| ProgressBars.LabelWidth.constructor | scylla/progress.py:5 | The label width starts at 0. |
| ProgressBars.LabelWidth.SetLongest | scylla/progress.py:8-11 | `set_longest` sets the width to `max(old, len(name))`, so the width never decreases. |
| ProgressFormat.PaddedLabel | scylla/progress.py:60 | If the width covers the name, the padded label has length width + 1. It is the name followed by spaces. |
| ProgressFormat.BarLayout | scylla/progress.py:73-85 | For a percent p in 0..100 the bar has exactly 50 cells. It holds `p // 2` `=` signs, then `>` exactly when p < 100, then spaces. |
| ProgressFormat.InitialLineBlank | scylla/progress.py:65-68 | The first line a bar prints has exactly 50 spaces between its brackets. |
| PrintCoordination.CursorUpsCount | scylla/progress.py:35 | `"\033[A" * n` is `max(n, 0)` cursor-ups and no line. |
| PrintCoordination.LinesCount | scylla/progress.py:36-37 | Reprinting the values prints one line per stored key and no cursor-up. |
| PrintCoordination.PrintLines | scylla/progress.py:36-37 | The loop prints the stored texts one per line, in the dictionary's key order. |
| PrintCoordination.WithoutRemovesOne | scylla/progress.py:43 | Popping a stored key takes out exactly its one position. The other keys keep their order. |
| PrintCoordination.StepsKeepWellFormed | scylla/progress.py:27-45 | All three operations keep the dictionary's shape: distinct keys in insertion order, matching its contents. |
| PrintCoordination.PutKeepsWellFormed | scylla/progress.py:27-37 | `register` and `print` keep the dictionary's shape. |
| PrintCoordination.RegisterFresh | scylla/progress.py:27-30 | `_len == len(_printers)` survives `register` exactly when the name is new. The name is appended last with text `""`. Other entries are kept. Exactly one blank line is printed. |
| PrintCoordination.PrintRedraw | scylla/progress.py:32-37 | The balance survives `print` exactly when the name is stored. Only that entry's text changes and the key order is kept. It writes `_len` cursor-ups, then one line per entry in order, as many lines as ups. |
| PrintCoordination.UnregisterRedraw | scylla/progress.py:39-45 | On a stored name, it writes the old `_len` cursor-ups, then the removed text, then the remaining entries in order, as many lines as ups. Afterwards the name is absent, `_len` is one less, the balance holds, and the other entries keep their order and text. |
| PrintCoordination.PrintAbsentOverprints | scylla/progress.py:32-37 | `print` on a name that is not stored, from a balanced state, breaks the balance, appends the name, and prints one line more than it moves up. |
| PrintCoordination.UnregisterAbsentDrifts | scylla/progress.py:39-45 | `unregister` on a name that is not stored leaves the state unchanged and balanced. It writes `_len` cursor-ups and no line. |
| PrintCoordination.RunStaysBalanced | scylla/progress.py:27-45 | Over any series of allowed calls from a balanced state, the balance holds at the end. The lines printed equal the cursor-ups plus the number of registrations. The region holds one line per registration not yet undone. |
| PrintCoordination.PrintCoordinator.constructor | scylla/progress.py:23-25 | A new coordinator has no lines, `_len` 0 and no output. |
| PrintCoordination.PrintCoordinator.Register | scylla/progress.py:27-30 | Updates the fields and the terminal exactly as `RegisterStep` does. |
| PrintCoordination.PrintCoordinator.Print | scylla/progress.py:32-37 | Updates the fields and the terminal exactly as `PrintStep` does. |
| PrintCoordination.PrintCoordinator.Unregister | scylla/progress.py:39-45 | Updates the fields and the terminal exactly as `UnregisterStep` does. It reports `KeyError` exactly when the name is not stored. |
| ProgressBars.OpenedBalanced | scylla/progress.py:57-68 | A new bar on a balanced coordinator leaves it balanced with the name last, showing the empty bar. The terminal gets one blank line and then a redraw with as many lines as ups. |
| ProgressBars.OpenedState | scylla/progress.py:57-68 | A new bar on a balanced coordinator leaves it balanced, with the name appended last and the empty bar as its text. |
| ProgressBars.OpenedOutput | scylla/progress.py:57-68 | A new bar writes one blank line and then a redraw that prints as many lines as it moves up. |
| ProgressBars.ProgressBar.Open | scylla/progress.py:62-68 | Registers the name and prints the empty bar, with the state and output `Opened` describes. |
| ProgressBars.ProgressBar.constructor | scylla/progress.py:57-68 | Widens the label width to cover the name and pads the name to it, so the label is exactly width + 1 long. Then it registers the name and prints the initial line. |
| ProgressBars.ProgressBar.Update | scylla/progress.py:70-87 | When the width covers the name, it re-pads the name to the current width, so the label is exactly width + 1 long. Then it prints label, bar, percent and the human-readable counts under its name. |
| ProgressBars.ProgressBar.Close | scylla/progress.py:89-90 | Unregisters the bar's name. It reports `KeyError` if the name was not stored. |
| Download.Start | scylla/downloader.py:52-77 | With a callback, chunks s1..sk give exactly k reports. Report i is `((s1+…+si) // 8, max(declared, s1+…+si) // 8)`. Without a callback there are no reports and `downloaded` stays 0. A client error gives one `error_cb` call named after the download. `done_cb(name)` comes last. |
| Download.ReportTotalCoversDownloaded | scylla/downloader.py:66-72 | In every report the total is at least the downloaded value. |
| Download.ReportsNondecreasing | scylla/downloader.py:66-72 | Successive reports never decrease, in either the downloaded value or the total. |
| Download.LastReportComplete | scylla/downloader.py:68-72 | If the declared size is at most what arrives, the last report's total equals its downloaded value. |
| Download.StartOutcome | scylla/downloader.py:58-77 | The done call is made once and last. An error call is made at most once, only after a client error, and names the download. There are no reports without a callback. |
| Downloaders.UncappedIsCappedAtCount | scylla/downloader.py:95-96 | A cap of 0 gives the same cap as one equal to the number of URLs. |
| Downloaders.NewDownloader | scylla/downloader.py:81-107 | Raises exactly when the output directory is missing. Otherwise it starts with no errors, no tasks, zero counters, an empty queue. A cap of 0 becomes the number of URLs, and any other cap is kept. |
| Downloaders.Downloader.constructor | scylla/downloader.py:89-107 | Sets the fields as the constructor does once the directory check has passed. |
| Downloaders.Downloader.ScheduleDownload | scylla/downloader.py:125-139 | Constructing the `Download` fails exactly when the URL could not be parsed. On that failure it appends exactly one error keyed by the URL and leaves the tasks alone. Otherwise it files a task for the URL under the derived name, overwriting any entry there, and leaves the errors alone. From a valid state it leaves exactly the one running count that the admission loop adds next. |
| Downloaders.Downloader.AdmitNext | scylla/downloader.py:111-116 | One loop iteration, on the next URL in order, schedules it and increments `_concurrent` whether or not construction succeeded. A started task joins the running ones, and a failed construction is counted as failed. It waits exactly when `_concurrent >= _max_concurrent`, and then no further URL is admitted until a name is taken off the queue. The invariant is kept. |
| Downloaders.Downloader.WaitUntilNext | scylla/downloader.py:121-123 | Removes exactly the first queued name and ends the wait. It stays suspended without change while the queue is empty. |
| Downloaders.Downloader.ErrorCb | scylla/downloader.py:141-142 | Appends the error. |
| Downloaders.Downloader.DoneCb | scylla/downloader.py:144-150 | Appends the name to the queue, decrements `_concurrent`, increments `_handled` and removes the name from `_tasks`. It runs only for a running task, which it removes from the running ones. `report_done_cb` is called exactly when the name was filed and a callback is set. |
| Downloaders.FailedNeverAllHandled | scylla/downloader.py:111-118 | With the invariant, handled downloads plus failed constructions never exceed the URL count. So after any failed construction, the exit condition `_handled >= len(urls)` of the final loop never holds. |
| Downloaders.AllHandledMeansAllDone | scylla/downloader.py:117-118 | When the final loop's exit condition holds, every URL was admitted, none failed, no task is running and `_concurrent` is 0. |
| Downloaders.GraphicDownloader.constructor | scylla/downloader.py:154-161 | Starts with no bars, on a downloader that has both callbacks set. |
| Downloaders.NewGraphicDownloader | scylla/downloader.py:154-161 | Raises exactly when the output directory is missing. Otherwise it is a fresh downloader with both callbacks set and no bars. |
| Downloaders.GraphicDownloader.ChunkReportCb | scylla/downloader.py:163-168 | Afterwards the report's name has a bar. An existing bar is reused and the map is unchanged. Otherwise a fresh bar is added. Then the bar prints the update line. |
| Downloaders.GraphicDownloader.UpdateKnown | scylla/downloader.py:163-168 | For a name that has a bar, prints that bar's update line and changes nothing else. |
| Downloaders.GraphicDownloader.FileBar | scylla/downloader.py:165-167 | Makes a fresh bar for the name and files it, widening the label width and opening the bar. The label width still covers every filed name. |
| Downloaders.GraphicDownloader.OpenAndUpdate | scylla/downloader.py:164-168 | For a name without a bar, files a fresh bar under it, widens the label width, opens the bar and prints its update line. |
| Downloaders.GraphicDownloader.DownloadDoneCb | scylla/downloader.py:170-173 | Closes the bar if the name has one and does nothing otherwise. It never removes a key. |
| Downloaders.GraphicDownloader.DoneCb | scylla/downloader.py:144-150 | The base `_done_cb` with `download_done_cb` as its report callback. The bar is closed only when the pop succeeded. |

## Left out

- HTTP with aiohttp (`session.get`, the response headers, `iter_chunks`) is network I/O. `Download.Start` takes the declared total, the chunk sizes received and whether the stream ended with a `ClientError`.
- File writes: `open` and `f.write` are filesystem I/O. An `OSError` from `open` is not caught, and `done_cb` is then skipped. Likewise `int(response.headers.get("CONTENT-LENGTH", 0))` (`scylla/downloader.py:60`) raises an uncaught `ValueError` on a non-numeric header, and `done_cb` is skipped. Neither path is modelled. `Download.Start` takes the declared total as an integer, and exactly-once delivery of `done_cb` is claimed only for the completed and client-error endings.
- `sys.getsizeof`: a chunk's size is an abstract natural number. The function returns the object's size, not the number of bytes in the chunk.
- URL name derivation (`urlparse`, `Path(...).name`) is library behaviour. The derived name, or `None` when parsing raised, is an input.
- asyncio: task creation, the queue's suspension, and the `sleep(0)` polling in the final phase of `start` are concurrency. They are replaced by transitions that the driver of the model fires in any order its preconditions allow. `Downloader.AllHandled` is the exit condition of that polling loop.
- The in-flight count is not proved to stay at or below the cap, and the run is not proved to terminate. The code guarantees neither. Queue items left over are consumed without waiting. A failed construction counts as running forever, so the final loop never exits (`FailedNeverAllHandled`).
- The float percent `int((part / total) * 100)` is floating point. The bar layout takes the integer percent as an input. A reported total below 8 bytes becomes 0 after `// 8`, and the division then raises `ZeroDivisionError`. That exception is not caught by `Download.start`, so `done_cb` is not called. This is not modelled.
- The process-wide singleton `CO_INSTANCE` and `_get_co` are not modelled. One explicit `PrintCoordinator` and one `LabelWidth` object are passed to every bar instead. The ANSI `\033[A` bytes and `print` calls become output tokens.
- `_tasks` maps a name to the `Transfer` it was created for, not to an `asyncio.Task`.
- Two downloads with the same name share one bar. After the first closes it, the second prints to a name that is no longer stored. `PrintRedraw` shows how that breaks the balance. No lemma follows a whole run of the downloader.
- `scylla/out.py` (colour console output and `sys.exit`), `scylla/main.py` (the command line and reading the URL file) and `setup.py` (packaging) are not part of this model.
