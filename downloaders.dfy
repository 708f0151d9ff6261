/** `Downloader` and `GraphicDownloader`: the bookkeeping that admits
    downloads under a cap and retires them when they report done. The
    event loop is not modelled: each method is one atomic transition, and
    whoever drives the model chooses which one fires next, as the loop's
    interleaving of tasks would. */
module Downloaders {
  import opened Download
  import opened PrintCoordination
  import opened ProgressFormat
  import opened ProgressBars

  datatype ConfigError = NoSuchDirectory

  datatype Result<T> = Success(value: T) | Failure(error: ConfigError)

  /** The cap `Downloader.__init__` keeps: 0 stands for the number of URLs,
      anything else is kept as given. */
  function EffectiveCap(maxConcurrent: int, urlCount: nat): int {
    if maxConcurrent == 0 then urlCount else maxConcurrent
  }

  /** An uncapped downloader is capped at the number of URLs. */
  lemma UncappedIsCappedAtCount(urlCount: nat)
    ensures EffectiveCap(0, urlCount) == EffectiveCap(urlCount, urlCount) == urlCount
  {
  }

  class Downloader {
    const urls: seq<string>
    const maxConcurrent: int
    /** Whether a `chunk_report_cb` and a `report_done_cb` were given. */
    const reportsChunks: bool
    const reportsDone: bool

    var errors: seq<DownloadError>
    /** `_tasks`: for each name, the download currently filed under it. */
    var tasks: map<string, Transfer>
    var handled: int
    var concurrent: int
    var doneQueue: seq<string>

    /** Admission-loop iterations so far, and queue items consumed so far. */
    ghost var admitted: nat
    ghost var taken: nat
    /** The names of the tasks started and not yet done, one copy per task
        (two URLs with the same name give two copies, while `_tasks` keeps
        one entry), and the number of URLs whose `Download` could not be
        constructed. */
    ghost var running: multiset<string>
    ghost var failed: nat
    /** Whether the admission loop is suspended in `_wait_until_next`. */
    ghost var waiting: bool

    /** The admission loop walks `urls` in order; every admitted URL is
        counted either as running or as handled; the running count is the
        started tasks not yet done plus the failed constructions, which no
        task will ever hand back; and every handled download has put its
        name on the queue. */
    ghost predicate Valid()
      reads this
    {
      && admitted <= |urls|
      && concurrent + handled == admitted
      && concurrent == |running| + failed
      && handled == taken + |doneQueue|
    }

    /** The fields `Downloader.__init__` sets once the output directory
        has been found. */
    constructor (urls: seq<string>, maxConcurrent: int, reportsChunks: bool, reportsDone: bool)
      ensures Valid()
      ensures this.urls == urls
      ensures maxConcurrent == 0 ==> this.maxConcurrent == |urls|
      ensures maxConcurrent != 0 ==> this.maxConcurrent == maxConcurrent
      ensures this.reportsChunks == reportsChunks && this.reportsDone == reportsDone
      ensures errors == [] && tasks == map[] && handled == 0 && concurrent == 0 && doneQueue == []
      ensures admitted == 0 && taken == 0 && running == multiset{} && failed == 0 && !waiting
    {
      this.urls := urls;
      this.maxConcurrent := EffectiveCap(maxConcurrent, |urls|);
      this.reportsChunks := reportsChunks;
      this.reportsDone := reportsDone;
      errors, tasks, handled, concurrent, doneQueue := [], map[], 0, 0, [];
      admitted, taken, running, failed, waiting := 0, 0, multiset{}, 0, false;
    }

    /** `schedule_download(url)`. `parsed` is the name derived from the URL,
        or `None` when parsing raised: the error is then recorded under the
        URL itself and no task is made. Otherwise the task is filed under
        its name, replacing any task already filed there. This is not a
        transition of its own: as in the source, it is only called from the
        admission loop, whose next statement counts the URL as running, so
        from a valid state it leaves exactly that one count missing. */
    method ScheduleDownload(url: string, parsed: Option<string>)
      modifies this`errors, this`tasks, this`running, this`failed
      ensures old(Valid()) ==> |running| + failed == concurrent + 1
      ensures parsed.None? ==> errors == old(errors) + [DownloadError(url, MalformedUrl(url))] && tasks == old(tasks)
      ensures parsed.None? ==> failed == old(failed) + 1 && running == old(running)
      ensures parsed.Some? ==>
        errors == old(errors) && tasks == old(tasks)[parsed.value := Transfer(url, parsed.value, reportsChunks)]
      ensures parsed.Some? ==> failed == old(failed) && running == old(running) + multiset{parsed.value}
    {
      match parsed
      case None =>
        errors := errors + [DownloadError(url, MalformedUrl(url))];
        failed := failed + 1;
      case Some(name) =>
        var download := Transfer(url, name, reportsChunks);
        tasks := tasks[name := download];
        running := running + multiset{name};
    }

    /** One iteration of the admission loop in `start`: schedule the URL,
        count it as running whether or not a task was made, and report
        whether the loop now waits for a finished download. */
    method AdmitNext(url: string, parsed: Option<string>) returns (mustWait: bool)
      requires Valid() && !waiting && admitted < |urls| && url == urls[admitted]
      modifies this`errors, this`tasks, this`concurrent, this`admitted, this`running, this`failed, this`waiting
      ensures Valid()
      ensures waiting == mustWait
      ensures concurrent == old(concurrent) + 1 && admitted == old(admitted) + 1
      ensures mustWait <==> concurrent >= maxConcurrent
      ensures parsed.None? ==> errors == old(errors) + [DownloadError(url, MalformedUrl(url))] && tasks == old(tasks)
      ensures parsed.Some? ==>
        errors == old(errors) && tasks == old(tasks)[parsed.value := Transfer(url, parsed.value, reportsChunks)]
      ensures parsed.None? ==> failed == old(failed) + 1 && running == old(running)
      ensures parsed.Some? ==> failed == old(failed) && running == old(running) + multiset{parsed.value}
    {
      ScheduleDownload(url, parsed);
      concurrent := concurrent + 1;
      admitted := admitted + 1;
      mustWait := concurrent >= maxConcurrent;
      waiting := mustWait;
    }

    /** `_wait_until_next`: take one name off the done queue. With the queue
        empty the coroutine stays suspended, which is `None` here and
        changes nothing; some other transition must fire first. */
    method WaitUntilNext() returns (got: Option<string>)
      requires Valid()
      modifies this`doneQueue, this`taken, this`waiting
      ensures Valid()
      ensures old(doneQueue) == [] ==>
        got.None? && doneQueue == [] && taken == old(taken) && waiting == old(waiting)
      ensures old(doneQueue) != [] ==>
        got == Some(old(doneQueue)[0]) && doneQueue == old(doneQueue)[1..] && taken == old(taken) + 1
      ensures old(doneQueue) != [] ==> !waiting
    {
      if doneQueue == [] {
        got := None;
      } else {
        got := Some(doneQueue[0]);
        doneQueue := doneQueue[1..];
        taken := taken + 1;
        waiting := false;
      }
    }

    /** `_error_cb`. */
    method ErrorCb(error: DownloadError)
      modifies this`errors
      ensures errors == old(errors) + [error]
    {
      errors := errors + [error];
    }

    /** `_done_cb(name)`: queue the name, count one download less running
        and one more handled, then drop its task. When no task is filed
        under the name (a second download of the same name), the pop raises
        `KeyError` after the counters have moved and `report_done_cb` is not
        called. Returns whether `report_done_cb(name)` is called. */
    method DoneCb(name: string) returns (notified: bool)
      requires Valid() && name in running
      modifies this`doneQueue, this`concurrent, this`handled, this`tasks, this`running
      ensures Valid()
      ensures running == old(running) - multiset{name}
      ensures doneQueue == old(doneQueue) + [name]
      ensures concurrent == old(concurrent) - 1 && handled == old(handled) + 1
      ensures tasks == old(tasks) - {name}
      ensures notified <==> name in old(tasks) && reportsDone
    {
      doneQueue := doneQueue + [name];
      concurrent := concurrent - 1;
      handled := handled + 1;
      running := running - multiset{name};
      var raised := name !in tasks;
      tasks := tasks - {name};
      notified := !raised && reportsDone;
    }

    /** The condition on which the final phase of `start` stops polling. */
    predicate AllHandled()
      reads this
    {
      handled >= |urls|
    }
  }

  /** Once a URL's `Download` could not be constructed, the final phase of
      `start` never stops polling: that URL's slot is never handed back, so
      `_handled` stays below the number of URLs. */
  lemma FailedNeverAllHandled(d: Downloader)
    requires d.Valid() && d.failed > 0
    ensures d.handled + d.failed <= |d.urls|
    ensures !d.AllHandled()
  {
  }

  /** The final phase stops polling only when every URL was admitted, none
      failed, and every started task is done. */
  lemma AllHandledMeansAllDone(d: Downloader)
    requires d.Valid() && d.AllHandled()
    ensures d.admitted == |d.urls| && d.failed == 0 && d.running == multiset{} && d.concurrent == 0
  {
  }

  /** `Downloader.__init__` as a whole: it raises before any state is used
      when the output directory is missing. */
  method NewDownloader(urls: seq<string>, outputDirExists: bool, maxConcurrent: int,
                       reportsChunks: bool, reportsDone: bool)
    returns (r: Result<Downloader>)
    ensures r.Failure? <==> !outputDirExists
    ensures r.Success? ==> var d := r.value;
      && fresh(d) && d.Valid()
      && d.urls == urls
      && (maxConcurrent == 0 ==> d.maxConcurrent == |urls|)
      && (maxConcurrent != 0 ==> d.maxConcurrent == maxConcurrent)
      && d.reportsChunks == reportsChunks && d.reportsDone == reportsDone
      && d.errors == [] && d.tasks == map[] && d.handled == 0 && d.concurrent == 0 && d.doneQueue == []
  {
    if !outputDirExists {
      return Failure(NoSuchDirectory);
    }
    var d := new Downloader(urls, maxConcurrent, reportsChunks, reportsDone);
    return Success(d);
  }

  /** A downloader that draws one progress bar per download name on a
      shared coordinator. `base` is the `Downloader` part, constructed with
      both callbacks set. */
  class GraphicDownloader {
    const base: Downloader
    const co: PrintCoordinator
    const widths: LabelWidth
    /** `progress_writers`. */
    var writers: map<string, ProgressBar>

    /** Besides the parts being valid: every bar is filed under its own
        name, draws on the shared coordinator and label width, and the
        label width covers every filed name. */
    ghost predicate Valid()
      reads this, co, base, widths
    {
      && co.Valid() && base.Valid()
      && base.reportsChunks && base.reportsDone
      && (forall n :: n in writers ==> writers[n].fileName == n && writers[n].co == co && writers[n].widths == widths)
      && (forall n :: n in writers ==> |n| <= widths.longest)
    }

    constructor (base: Downloader, co: PrintCoordinator, widths: LabelWidth)
      requires co.Valid() && base.Valid() && base.reportsChunks && base.reportsDone
      ensures Valid() && this.base == base && this.co == co && this.widths == widths && writers == map[]
    {
      this.base, this.co, this.widths := base, co, widths;
      writers := map[];
    }

    /** `chunk_report_cb(report)` at the integer percent the bar shows: the
        bar filed under the report's name is reused, or a new one is made
        and filed; then it is updated with the report's counts. */
    method ChunkReportCb(report: ChunkReport, percent: int)
      requires Valid()
      modifies this`writers, co, widths, if report.name in writers then {writers[report.name]} else {}
      ensures Valid()
      ensures report.name in writers
      ensures report.name in old(writers) ==> writers == old(writers)
      ensures report.name !in old(writers) ==>
        fresh(writers[report.name]) && writers == old(writers)[report.name := writers[report.name]]
      ensures widths.longest == if report.name in old(writers) then old(widths.longest)
                                else Longer(old(widths.longest), report.name)
      ensures var r := Reported(old(co.State()), report.name, report.name in old(writers),
                                Padded(report.name, widths.longest),
                                UpdateLine(Padded(report.name, widths.longest), percent, report.downloaded, report.totalSize));
        co.State() == r.next && co.output == old(co.output) + r.out
    {
      if report.name in writers {
        UpdateKnown(report, percent);
      } else {
        OpenAndUpdate(report, percent);
      }
    }

    /** The part of `chunk_report_cb` for a name that has a bar: update it. */
    method UpdateKnown(report: ChunkReport, percent: int)
      requires Valid() && report.name in writers
      modifies co, writers[report.name]
      ensures Valid()
      ensures var r := Reported(old(co.State()), report.name, true,
                                Padded(report.name, widths.longest),
                                UpdateLine(Padded(report.name, widths.longest), percent, report.downloaded, report.totalSize));
        co.State() == r.next && co.output == old(co.output) + r.out
    {
      var bar := writers[report.name];
      bar.Update(percent, report.downloaded, report.totalSize);
      assert [] + PrintStep(old(co.State()), report.name, UpdateLine(bar.caption, percent, report.downloaded, report.totalSize)).out
          == PrintStep(old(co.State()), report.name, UpdateLine(bar.caption, percent, report.downloaded, report.totalSize)).out;
    }

    /** The part of `chunk_report_cb` for a name without a bar: make one,
        file it, and update it. */
    method OpenAndUpdate(report: ChunkReport, percent: int)
      requires Valid() && report.name !in writers
      modifies this`writers, co, widths
      ensures Valid()
      ensures report.name in writers && fresh(writers[report.name])
      ensures writers == old(writers)[report.name := writers[report.name]]
      ensures widths.longest == Longer(old(widths.longest), report.name)
      ensures var r := Reported(old(co.State()), report.name, false,
                                Padded(report.name, widths.longest),
                                UpdateLine(Padded(report.name, widths.longest), percent, report.downloaded, report.totalSize));
        co.State() == r.next && co.output == old(co.output) + r.out
    {
      ghost var d := co.State();
      ghost var out := co.output;
      var bar := FileBar(report.name);
      ghost var opening := Opened(d, report.name, bar.caption);
      bar.Update(percent, report.downloaded, report.totalSize);
      ghost var update := PrintStep(opening.next, report.name,
                                    UpdateLine(bar.caption, percent, report.downloaded, report.totalSize));
      assert co.output == (out + opening.out) + update.out;
      Associative(out, opening.out, update.out);
    }

    /** The new-bar branch of `chunk_report_cb` (scylla/downloader.py:165-167):
        make a bar for the name and file it under the name. */
    method FileBar(name: string) returns (bar: ProgressBar)
      requires Valid() && name !in writers
      modifies this`writers, co, widths
      ensures Valid() && fresh(bar) && writers == old(writers)[name := bar]
      ensures bar.fileName == name && bar.co == co && bar.widths == widths
      ensures widths.longest == Longer(old(widths.longest), name)
      ensures bar.caption == Padded(name, widths.longest)
      ensures co.State() == Opened(old(co.State()), name, bar.caption).next
      ensures co.output == old(co.output) + Opened(old(co.State()), name, bar.caption).out
    {
      bar := new ProgressBar(name, co, widths);
      writers := writers[name := bar];
    }

    /** `download_done_cb(name)`: close the bar filed under the name, if
        there is one. The bar stays filed. Returns whether closing raised
        because the bar had already been closed. */
    method DownloadDoneCb(name: string) returns (raised: bool)
      requires Valid()
      modifies co
      ensures Valid()
      ensures name in writers ==>
        && raised == UnregisterRaises(old(co.State()), name)
        && co.State() == UnregisterStep(old(co.State()), name).next
        && co.output == old(co.output) + UnregisterStep(old(co.State()), name).out
      ensures name !in writers ==> !raised && co.State() == old(co.State()) && co.output == old(co.output)
    {
      raised := false;
      if name in writers {
        raised := writers[name].Close();
      }
    }

    /** The base `_done_cb`, whose `report_done_cb` is `download_done_cb`. */
    method DoneCb(name: string) returns (notified: bool, raised: bool)
      requires Valid() && name in base.running
      modifies base`doneQueue, base`concurrent, base`handled, base`tasks, base`running, co
      ensures Valid()
      ensures base.doneQueue == old(base.doneQueue) + [name]
      ensures base.concurrent == old(base.concurrent) - 1 && base.handled == old(base.handled) + 1
      ensures base.tasks == old(base.tasks) - {name}
      ensures base.running == old(base.running) - multiset{name}
      ensures notified <==> name in old(base.tasks)
      ensures notified && name in writers ==>
        && raised == UnregisterRaises(old(co.State()), name)
        && co.State() == UnregisterStep(old(co.State()), name).next
        && co.output == old(co.output) + UnregisterStep(old(co.State()), name).out
      ensures !(notified && name in writers) ==> !raised && co.State() == old(co.State()) && co.output == old(co.output)
    {
      notified := base.DoneCb(name);
      raised := false;
      if notified {
        raised := DownloadDoneCb(name);
      }
    }
  }

  /** `GraphicDownloader.__init__`: a `Downloader` with both callbacks set
      and no bars yet, or the missing-directory error. */
  method NewGraphicDownloader(urls: seq<string>, outputDirExists: bool, maxConcurrent: int,
                              co: PrintCoordinator, widths: LabelWidth)
    returns (r: Result<GraphicDownloader>)
    requires co.Valid()
    ensures r.Failure? <==> !outputDirExists
    ensures r.Success? ==> var g := r.value;
      && fresh(g) && fresh(g.base) && g.Valid() && g.co == co && g.widths == widths && g.writers == map[]
      && g.base.urls == urls
      && (maxConcurrent == 0 ==> g.base.maxConcurrent == |urls|)
      && (maxConcurrent != 0 ==> g.base.maxConcurrent == maxConcurrent)
      && g.base.errors == [] && g.base.tasks == map[] && g.base.handled == 0
      && g.base.concurrent == 0 && g.base.doneQueue == []
  {
    var base := NewDownloader(urls, outputDirExists, maxConcurrent, true, true);
    if base.Failure? {
      return Failure(base.error);
    }
    var g := new GraphicDownloader(base.value, co, widths);
    return Success(g);
  }
}
