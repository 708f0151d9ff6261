/** `Download`: one URL's transfer. The HTTP request, the response headers
    and the chunk iterator are replaced by their results: the declared
    total (`CONTENT-LENGTH`, or 0), the sizes of the chunks received, and
    whether the stream ended normally or with a client error. */
module Download {
  import opened Arithmetic

  datatype Option<T> = None | Some(value: T)

  /** The exception a `DownloadError` carries. */
  datatype Cause =
    | MalformedUrl(url: string)   // `DownloadException` raised by the constructor
    | ClientError                 // `aiohttp.ClientError` raised by the transfer

  datatype DownloadError = DownloadError(name: string, cause: Cause)

  datatype ChunkReport = ChunkReport(name: string, downloaded: int, totalSize: int)

  datatype StreamEnd = Completed | ClientFailure

  /** A call `Download.start` makes on the callbacks it was handed. */
  datatype Event =
    | Progress(report: ChunkReport)   // the chunk-report callback, once per chunk
    | Failed(error: DownloadError)    // the error callback
    | Finished(name: string)          // the done callback, awaited

  /** A constructed download (`Download.__init__`): its URL, the name
      derived from the URL's last path segment, and whether a chunk-report
      callback was given. */
  datatype Transfer = Transfer(url: string, name: string, reporting: bool)

  /** Bytes received in the first `i` chunks. */
  function Received(chunks: seq<nat>, i: nat): nat
    requires i <= |chunks|
  {
    if i == 0 then 0 else Received(chunks, i - 1) + chunks[i - 1]
  }

  function Max(a: int, b: int): int {
    if a < b then b else a
  }

  /** The report sent after chunk `i` (counting from 0): what has arrived so
      far and the declared total raised to it, both divided by 8. */
  function ReportAfter(name: string, declared: int, chunks: seq<nat>, i: nat): ChunkReport
    requires i < |chunks|
  {
    ChunkReport(name, Received(chunks, i + 1) / 8, Max(declared, Received(chunks, i + 1)) / 8)
  }

  /** `Download.start` after the response has arrived. With a chunk-report
      callback, every chunk adds its size to `downloaded`, raises the total
      to at least `downloaded` and is reported; without one, nothing is
      counted or reported. A client error is passed to `error_cb` under the
      download's name, and `done_cb` is called last in either case. */
  method Start(t: Transfer, declared: int, chunks: seq<nat>, end: StreamEnd)
    returns (events: seq<Event>, downloaded: int, total: int)
    ensures var reports := if t.reporting then |chunks| else 0;
      && |events| == reports + (if end == ClientFailure then 2 else 1)
      && (forall i :: 0 <= i < reports ==> events[i] == Progress(ReportAfter(t.name, declared, chunks, i)))
      && (end == ClientFailure ==> events[reports] == Failed(DownloadError(t.name, ClientError)))
      && events[|events| - 1] == Finished(t.name)
    ensures downloaded == if t.reporting then Received(chunks, |chunks|) else 0
    ensures total == if t.reporting && |chunks| > 0 then Max(declared, downloaded) else declared
  {
    events, downloaded, total := [], 0, declared;
    var i := 0;
    while i < |chunks|
      invariant 0 <= i <= |chunks|
      invariant downloaded == if t.reporting then Received(chunks, i) else 0
      invariant total == if t.reporting && i > 0 then Max(declared, downloaded) else declared
      invariant |events| == if t.reporting then i else 0
      invariant forall k :: 0 <= k < |events| ==> events[k] == Progress(ReportAfter(t.name, declared, chunks, k))
    {
      if t.reporting {
        downloaded := downloaded + chunks[i];
        if total < downloaded {
          total := downloaded;
        }
        events := events + [Progress(ChunkReport(t.name, downloaded / 8, total / 8))];
      }
      i := i + 1;
    }
    if end == ClientFailure {
      events := events + [Failed(DownloadError(t.name, ClientError))];
    }
    events := events + [Finished(t.name)];
  }

  lemma {:induction false} ReceivedMonotone(chunks: seq<nat>, i: nat, j: nat)
    requires i <= j <= |chunks|
    ensures Received(chunks, i) <= Received(chunks, j)
    decreases j - i
  {
    if i < j {
      ReceivedMonotone(chunks, i, j - 1);
    }
  }

  /** Every report's total is at least what it says was downloaded. */
  lemma ReportTotalCoversDownloaded(name: string, declared: int, chunks: seq<nat>, i: nat)
    requires i < |chunks|
    ensures ReportAfter(name, declared, chunks, i).totalSize >= ReportAfter(name, declared, chunks, i).downloaded
  {
    DivMonotone(Received(chunks, i + 1), Max(declared, Received(chunks, i + 1)), 8);
  }

  /** Later reports never show less: neither downloaded nor total shrinks. */
  lemma ReportsNondecreasing(name: string, declared: int, chunks: seq<nat>, i: nat, j: nat)
    requires i <= j < |chunks|
    ensures ReportAfter(name, declared, chunks, i).downloaded <= ReportAfter(name, declared, chunks, j).downloaded
    ensures ReportAfter(name, declared, chunks, i).totalSize <= ReportAfter(name, declared, chunks, j).totalSize
  {
    ReceivedMonotone(chunks, i + 1, j + 1);
    DivMonotone(Received(chunks, i + 1), Received(chunks, j + 1), 8);
    DivMonotone(Max(declared, Received(chunks, i + 1)), Max(declared, Received(chunks, j + 1)), 8);
  }

  /** When the server declared no more than actually arrives, the last
      report shows the total reached. */
  lemma LastReportComplete(name: string, declared: int, chunks: seq<nat>)
    requires |chunks| > 0 && declared <= Received(chunks, |chunks|)
    ensures ReportAfter(name, declared, chunks, |chunks| - 1).totalSize
         == ReportAfter(name, declared, chunks, |chunks| - 1).downloaded
  {
  }

  /** What a transfer delivers: reports only with a callback, an error only
      after a client error and at most once, and exactly one `done` call,
      named after the download and coming last. */
  lemma StartOutcome(t: Transfer, declared: int, chunks: seq<nat>, end: StreamEnd, events: seq<Event>)
    requires var reports := if t.reporting then |chunks| else 0;
      && |events| == reports + (if end == ClientFailure then 2 else 1)
      && (forall i :: 0 <= i < reports ==> events[i] == Progress(ReportAfter(t.name, declared, chunks, i)))
      && (end == ClientFailure ==> events[reports] == Failed(DownloadError(t.name, ClientError)))
      && events[|events| - 1] == Finished(t.name)
    ensures forall i :: 0 <= i < |events| && events[i].Finished? ==> i == |events| - 1
    ensures forall i :: 0 <= i < |events| && events[i].Failed? ==>
      end == ClientFailure && i == |events| - 2 && events[i].error == DownloadError(t.name, ClientError)
    ensures !t.reporting ==> forall i :: 0 <= i < |events| ==> !events[i].Progress?
  {
  }
}
