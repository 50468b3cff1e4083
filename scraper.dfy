/** The `Scraper` class: for one classification (Ateco) code it fetches the
    first listing page, estimates the number of pages, then fetches and
    processes pages 1..last in order, writing lines to a log file and a data
    file. The network is the function `fetch` from URL to response, the clock
    is a `Clock` of timestamps, and each file is the sequence of lines written
    to it: a `LogLine` or `Record` per `write` call, whose text is given by
    `Text` and `RecordText`. */
module AziendeScrapper {
  import opened Py
  import opened PageCount
  import opened Extraction

  /** A response as the scraper uses it: its text, which is tested for
      emptiness, and what the parser finds in it (the text of the `h2` heading,
      the rows of the table with id `t2`). */
  datatype Page = Page(source: string, heading: Option<string>, table: Option<seq<Row>>)

  /** The clock readings of one run: at the start, before the page loop, and
      before processing each page (by page number). */
  datatype Clock = Clock(start: string, calls: string, page: nat -> string)

  /** Whether the work ran to its end or an exception escaped. */
  datatype Status = Completed | Aborted(error: PyError)

  /** What a stretch of work leaves behind: the URLs requested through the
      session, the lines written to each sink, and how it ended. */
  datatype Trace = Trace(requests: seq<string>, log: seq<LogLine>, data: seq<Record>, status: Status)

  /** `if page_source:`: a response counts only when it is present and not empty. */
  predicate HasContent(source: Option<Page>) {
    source.Some? && source.value.source != ""
  }

  const SiteUrl: string := "https://registroaziende.it/ateco/"

  function BaseUrl(code: string): string {
    SiteUrl + code
  }

  /** The URL of listing page `n`. */
  function PageUrl(baseUrl: string, n: nat): string {
    baseUrl + "?page=" + NatToString(n) + "&ordering=-ultimo_fatturato"
  }

  /** A line written to the log file, by the call that writes it. */
  datatype LogLine =
    | Start(ts: string, code: string)
    | Found(lastPage: nat)
    | Calls(ts: string, urlBase: string)
    | Intent(ts: string, code: string, page: nat)
    | NotFound(code: string, page: nat, baseUrl: string)
    | Failed(code: string, page: nat, baseUrl: string)
    | Done(code: string)

  /** A line written to the data file: one company found on a page. */
  datatype Record = Record(azienda: Azienda, code: string, page: nat)

  /** The text of a log line, as written; it ends with a newline. */
  function Text(line: LogLine): (s: string)
    ensures |s| > 0 && s[|s| - 1] == '\n'
  {
    match line
    case Start(ts, code) => ts + " - Starting scraper for Ateco: " + code + "\n"
    case Found(lastPage) => "Found last_page: " + NatToString(lastPage) + "\n"
    case Calls(ts, urlBase) => ts + " - Starting asynchronous calls for " + urlBase + "\n"
    case Intent(ts, code, n) => ts + " - Ateco: " + code + ", Page: " + NatToString(n) + "\n"
    case NotFound(code, n, baseUrl) =>
      "Table with id 't2' not found (Ateco: " + code + ") on page " + NatToString(n) + ". URL: " + baseUrl + "\n"
    case Failed(code, n, baseUrl) =>
      "Failed to retrieve (Ateco: " + code + ") on page " + NatToString(n) + ". URL: " + baseUrl + "\n"
    case Done(code) => "Scraper completed for Ateco: " + code + "\n"
  }

  /** The text of a data line, as written. */
  function RecordText(r: Record): (s: string)
    ensures |s| > 0 && s[|s| - 1] == '\n'
  {
    "Azienda: " + r.azienda.azienda + ", Città: " + r.azienda.citta + ", Provincia: " + r.azienda.provincia
    + ", Fatturato: " + r.azienda.fatturato + ", Ateco: " + r.code + ", Numero Pagina: " + NatToString(r.page) + "\n"
  }

  /** The data lines of a page's records: one per record, in record order. */
  function DataLines(records: seq<Azienda>, code: string, n: nat): (lines: seq<Record>)
    ensures |lines| == |records|
    ensures forall i :: 0 <= i < |records| ==> lines[i] == Record(records[i], code, n)
  {
    if records == [] then []
    else DataLines(records[..|records| - 1], code, n) + [Record(records[|records| - 1], code, n)]
  }

  /** The link of a company is not part of its data line. */
  lemma AziendaLineOmitsUrl(a: Azienda, url: string, code: string, n: nat)
    ensures RecordText(Record(a.(aziendaUrl := url), code, n)) == RecordText(Record(a, code, n))
  {
  }

  /** What processing one page leaves behind: the lines written to each sink
      and how it ended. */
  datatype Outcome = Outcome(log: seq<LogLine>, data: seq<Record>, status: Status)

  /** What `process_page` writes for page `n`, given its response. */
  function PageTrace(baseUrl: string, n: nat, source: Option<Page>, code: string, ts: string): Outcome {
    var intent := Intent(ts, code, n);
    if !HasContent(source) then Outcome([intent, Failed(code, n, baseUrl)], [], Completed)
    else match source.value.table
    case None => Outcome([intent, NotFound(code, n, baseUrl)], [], Completed)
    case Some(rows) =>
      match Extracted(rows)
      case Raised(e) => Outcome([intent], [], Aborted(e))
      case Ok(records) => Outcome([intent], DataLines(records, code, n), Completed)
  }

  /** One intent line first; then exactly one of: a failure line, a missing
      table line, or one data line per row after the table's header. */
  lemma PageOutput(baseUrl: string, n: nat, source: Option<Page>, code: string, ts: string)
    ensures var t := PageTrace(baseUrl, n, source, code, ts);
      |t.log| >= 1 && t.log[0] == Intent(ts, code, n)
      && (!HasContent(source) ==>
            t.log == [Intent(ts, code, n), Failed(code, n, baseUrl)] && t.data == [] && t.status == Completed)
      && (HasContent(source) && source.value.table.None? ==>
            t.log == [Intent(ts, code, n), NotFound(code, n, baseUrl)] && t.data == [] && t.status == Completed)
      && (HasContent(source) && source.value.table.Some? ==>
            var rows := source.value.table.value;
            t.log == [Intent(ts, code, n)]
            && (t.status == Completed <==> forall i :: 1 <= i < |rows| ==> WellFormedRow(rows[i]))
            && (t.status == Completed ==>
                  |t.data| == (if |rows| == 0 then 0 else |rows| - 1)
                  && forall i :: 0 <= i < |t.data| ==>
                       t.data[i] == Record(ExtractRow(rows[i + 1]).value, code, n))
            && (t.status.Aborted? ==> t.data == []))
  {
    if HasContent(source) && source.value.table.Some? {
      ExtractedRecords(source.value.table.value);
    }
  }

  /** Every page writes one or two log lines. */
  lemma PageShape(baseUrl: string, n: nat, source: Option<Page>, code: string, ts: string)
    ensures 1 <= |PageTrace(baseUrl, n, source, code, ts).log| <= 2
  {
  }

  /** Page `n` of `get_all_pages`' loop: its URL is fetched, then processed
      with the clock reading `stamp(n)`. */
  function Pages(baseUrl: string, code: string, fetch: string -> Option<Page>, stamp: nat -> string): nat -> Outcome {
    (n: nat) => PageTrace(baseUrl, n, fetch(PageUrl(baseUrl, n)), code, stamp(n))
  }

  /** What pages 1..k of the loop leave behind, when `page(n)` is what page
      `n` does: each is requested, then processed; an exception stops the
      loop at the page that raised it. */
  function PagesTrace(baseUrl: string, page: nat -> Outcome, k: nat): Trace {
    if k == 0 then Trace([], [], [], Completed)
    else
      var before := PagesTrace(baseUrl, page, k - 1);
      if before.status.Aborted? then before
      else Trace(before.requests + [PageUrl(baseUrl, k)], before.log + page(k).log, before.data + page(k).data, page(k).status)
  }

  /** After an exception nothing more happens. */
  lemma {:induction false} AbortIsFinal(baseUrl: string, page: nat -> Outcome, k: nat, m: nat)
    requires k <= m
    requires PagesTrace(baseUrl, page, k).status.Aborted?
    ensures PagesTrace(baseUrl, page, m) == PagesTrace(baseUrl, page, k)
    decreases m - k
  {
    if k < m {
      AbortIsFinal(baseUrl, page, k, m - 1);
    }
  }

  /** The loop requests pages 1, 2, … in increasing order, each once; all k
      of them unless a page raises, and then that page is the last one
      requested. When every page writes one or two log lines, the loop
      writes between one and two per page requested, in total. */
  lemma {:induction false} PagesRequested(baseUrl: string, page: nat -> Outcome, k: nat)
    ensures var t := PagesTrace(baseUrl, page, k);
      |t.requests| <= k
      && (forall i :: 0 <= i < |t.requests| ==> t.requests[i] == PageUrl(baseUrl, i + 1))
      && (t.status == Completed ==> |t.requests| == k)
      && (t.status.Aborted? ==> |t.requests| >= 1 && t.status == page(|t.requests|).status)
      && ((forall n :: 1 <= n <= k ==> 1 <= |page(n).log| <= 2) ==> |t.requests| <= |t.log| <= 2 * |t.requests|)
    decreases k
  {
    if k > 0 {
      PagesRequested(baseUrl, page, k - 1);
    }
  }

  /** The loop completes exactly when every page up to k completes. */
  lemma {:induction false} PagesComplete(baseUrl: string, page: nat -> Outcome, k: nat)
    ensures PagesTrace(baseUrl, page, k).status == Completed
            <==> forall n :: 1 <= n <= k ==> page(n).status == Completed
    decreases k
  {
    if k > 0 {
      PagesComplete(baseUrl, page, k - 1);
    }
  }

  /** `get_all_pages` requests pages 1, 2, … in increasing order, each once;
      it completes exactly when no page raises, and then all k were
      requested; if a page raises, it is the last one requested. In total it
      writes between one and two log lines per page requested. */
  lemma PagesInOrder(baseUrl: string, code: string, fetch: string -> Option<Page>, stamp: nat -> string, k: nat)
    ensures var page := Pages(baseUrl, code, fetch, stamp);
      var t := PagesTrace(baseUrl, page, k);
      |t.requests| <= k
      && (forall i :: 0 <= i < |t.requests| ==> t.requests[i] == PageUrl(baseUrl, i + 1))
      && (t.status == Completed <==> |t.requests| == k && forall n :: 1 <= n <= k ==> page(n).status == Completed)
      && (t.status.Aborted? ==> |t.requests| >= 1 && t.status == page(|t.requests|).status)
      && |t.requests| <= |t.log| <= 2 * |t.requests|
  {
    var page := Pages(baseUrl, code, fetch, stamp);
    forall n | 1 <= n <= k
      ensures 1 <= |page(n).log| <= 2
    {
      PageShape(baseUrl, n, fetch(PageUrl(baseUrl, n)), code, stamp(n));
    }
    PagesRequested(baseUrl, page, k);
    PagesComplete(baseUrl, page, k);
  }

  /** Every data line of a page carries that page's number. */
  lemma PageDataOnItsPage(baseUrl: string, n: nat, source: Option<Page>, code: string, ts: string)
    ensures var d := PageTrace(baseUrl, n, source, code, ts).data;
      forall i :: 0 <= i < |d| ==> d[i].page == n
  {
  }

  /** The loop writes data lines in page order: each carries the number of a
      page it requested, and the numbers never decrease, provided every page
      labels its own data lines with its number. */
  lemma {:induction false} PagesDataInPageOrder(baseUrl: string, page: nat -> Outcome, k: nat)
    requires forall n: nat, i :: 1 <= n <= k && 0 <= i < |page(n).data| ==> page(n).data[i].page == n
    ensures var t := PagesTrace(baseUrl, page, k);
      (t.status == Completed ==> |t.requests| == k)
      && (forall i :: 0 <= i < |t.data| ==> 1 <= t.data[i].page <= |t.requests|)
      && (forall i, j :: 0 <= i <= j < |t.data| ==> t.data[i].page <= t.data[j].page)
    decreases k
  {
    if k > 0 {
      PagesDataInPageOrder(baseUrl, page, k - 1);
      var before := PagesTrace(baseUrl, page, k - 1);
      if !before.status.Aborted? {
        var t := PagesTrace(baseUrl, page, k);
        var d := before.data + page(k).data;
        assert t.data == d && |t.requests| == k;
        forall i | 0 <= i < |d|
          ensures 1 <= d[i].page <= k
          ensures i >= |before.data| ==> d[i].page == k
        {
          if i >= |before.data| {
            assert d[i] == page(k).data[i - |before.data|];
          }
        }
      }
    }
  }

  /** What `run_scraper` leaves behind. The session is a fresh one, so its
      requests are the run's alone. */
  function RunTrace(code: string, fetch: string -> Option<Page>, clock: Clock): Trace {
    var baseUrl := BaseUrl(code);
    var start := Start(clock.start, code);
    var first := fetch(baseUrl);
    if !HasContent(first) then Trace([baseUrl], [start] + [Done(code)], [], Completed)
    else match FindLastPageNumber(first.value.heading)
    case Raised(e) => Trace([baseUrl], [start], [], Aborted(e))
    case Ok(lastPage) =>
      var pages := PagesTrace(baseUrl, Pages(baseUrl, code, fetch, clock.page), lastPage);
      var log := [start] + [Found(lastPage)] + [Calls(clock.calls, baseUrl)] + pages.log;
      Trace([baseUrl] + pages.requests,
            if pages.status == Completed then log + [Done(code)] else log,
            pages.data, pages.status)
  }

  // The three lemmas below unfold one branch of `RunTrace` each; they keep
  // the proofs of `RunScraper` and the run lemmas small.

  /** The run when the first response is empty or absent. */
  lemma RunTraceOfEmpty(code: string, fetch: string -> Option<Page>, clock: Clock)
    requires !HasContent(fetch(BaseUrl(code)))
    ensures RunTrace(code, fetch, clock) == Trace([BaseUrl(code)], [Start(clock.start, code)] + [Done(code)], [], Completed)
  {
  }

  /** The run when reading the page count raises. */
  lemma RunTraceOfRaised(code: string, fetch: string -> Option<Page>, clock: Clock, e: PyError)
    requires HasContent(fetch(BaseUrl(code)))
    requires FindLastPageNumber(fetch(BaseUrl(code)).value.heading) == Raised(e)
    ensures RunTrace(code, fetch, clock) == Trace([BaseUrl(code)], [Start(clock.start, code)], [], Aborted(e))
  {
  }

  /** The run once the first page has content and gives an estimate. */
  lemma RunTraceOfListing(code: string, fetch: string -> Option<Page>, clock: Clock, lastPage: nat)
    requires HasContent(fetch(BaseUrl(code)))
    requires FindLastPageNumber(fetch(BaseUrl(code)).value.heading) == Ok(lastPage)
    ensures var pages := PagesTrace(BaseUrl(code), Pages(BaseUrl(code), code, fetch, clock.page), lastPage);
      var log := [Start(clock.start, code)] + [Found(lastPage)] + [Calls(clock.calls, BaseUrl(code))] + pages.log;
      RunTrace(code, fetch, clock) ==
        Trace([BaseUrl(code)] + pages.requests,
              if pages.status == Completed then log + [Done(code)] else log,
              pages.data, pages.status)
  {
  }

  /** A listing run logs the estimate and the start of the page loop after
      its start line. */
  lemma ListingLog(code: string, fetch: string -> Option<Page>, clock: Clock, lastPage: nat)
    requires HasContent(fetch(BaseUrl(code)))
    requires FindLastPageNumber(fetch(BaseUrl(code)).value.heading) == Ok(lastPage)
    ensures var t := RunTrace(code, fetch, clock);
      |t.log| >= 3 && t.log[0] == Start(clock.start, code) && t.log[1] == Found(lastPage)
      && t.log[2] == Calls(clock.calls, BaseUrl(code))
      && (t.status == Completed ==> t.log[|t.log| - 1] == Done(code))
  {
    var baseUrl := BaseUrl(code);
    RunTraceOfListing(code, fetch, clock, lastPage);
    var pages := PagesTrace(baseUrl, Pages(baseUrl, code, fetch, clock.page), lastPage);
    var head := [Start(clock.start, code)] + [Found(lastPage)] + [Calls(clock.calls, baseUrl)];
    assert |head| == 3 && head[0] == Start(clock.start, code) && head[1] == Found(lastPage)
           && head[2] == Calls(clock.calls, baseUrl);
    assert (head + pages.log)[..3] == head;
  }

  /** A listing run requests pages 1..last in order after the first page,
      all of them unless an exception escapes. */
  lemma ListingRequests(code: string, fetch: string -> Option<Page>, clock: Clock, lastPage: nat)
    requires HasContent(fetch(BaseUrl(code)))
    requires FindLastPageNumber(fetch(BaseUrl(code)).value.heading) == Ok(lastPage)
    ensures var t := RunTrace(code, fetch, clock);
      1 <= |t.requests| <= lastPage + 1 && t.requests[0] == BaseUrl(code)
      && (forall i :: 1 <= i < |t.requests| ==> t.requests[i] == PageUrl(BaseUrl(code), i))
      && (t.status == Completed ==> |t.requests| == lastPage + 1)
  {
    var baseUrl := BaseUrl(code);
    var page := Pages(baseUrl, code, fetch, clock.page);
    RunTraceOfListing(code, fetch, clock, lastPage);
    PagesRequested(baseUrl, page, lastPage);
    var pages := PagesTrace(baseUrl, page, lastPage);
    var requests := [baseUrl] + pages.requests;
    forall i | 1 <= i < |requests|
      ensures requests[i] == PageUrl(baseUrl, i)
    {
      assert requests[i] == pages.requests[i - 1];
    }
  }

  /** The run writes its start line first and, unless an exception escapes,
      its completion line last. An empty first response means no page is
      processed and no page count is logged; a count that raises means only
      the start line. Otherwise at most pages 1..last are requested after the
      first page, in order, with last = the estimate, and all of them when
      the run completes. */
  lemma RunControlFlow(code: string, fetch: string -> Option<Page>, clock: Clock)
    ensures var t := RunTrace(code, fetch, clock);
      |t.log| >= 1 && t.log[0] == Start(clock.start, code)
      && |t.requests| >= 1 && t.requests[0] == BaseUrl(code)
      && (t.status == Completed ==> t.log[|t.log| - 1] == Done(code))
      && (!HasContent(fetch(BaseUrl(code))) ==>
            t.requests == [BaseUrl(code)] && t.log == [Start(clock.start, code), Done(code)]
            && t.data == [] && t.status == Completed)
      && (HasContent(fetch(BaseUrl(code))) && FindLastPageNumber(fetch(BaseUrl(code)).value.heading).Raised? ==>
            t.requests == [BaseUrl(code)] && t.log == [Start(clock.start, code)] && t.data == []
            && t.status == Aborted(ValueError))
      && (HasContent(fetch(BaseUrl(code))) && FindLastPageNumber(fetch(BaseUrl(code)).value.heading).Ok? ==>
            var lastPage := FindLastPageNumber(fetch(BaseUrl(code)).value.heading).value;
            |t.log| >= 3 && t.log[1] == Found(lastPage) && t.log[2] == Calls(clock.calls, BaseUrl(code))
            && |t.requests| <= lastPage + 1
            && (forall i :: 1 <= i < |t.requests| ==> t.requests[i] == PageUrl(BaseUrl(code), i))
            && (t.status == Completed ==> |t.requests| == lastPage + 1))
  {
    var first := fetch(BaseUrl(code));
    if !HasContent(first) {
      RunTraceOfEmpty(code, fetch, clock);
    } else {
      var estimate := FindLastPageNumber(first.value.heading);
      if estimate.Raised? {
        RunTraceOfRaised(code, fetch, clock, estimate.error);
      } else {
        ListingLog(code, fetch, clock, estimate.value);
        ListingRequests(code, fetch, clock, estimate.value);
      }
    }
  }

  /** A first page headed "150 aziende" leads to requests for at most pages
      1..8 after the first page, in order, and all of them when the run
      completes. */
  lemma RunOf150(code: string, fetch: string -> Option<Page>, clock: Clock, heading: string)
    requires heading == "150 aziende"
    requires HasContent(fetch(BaseUrl(code))) && fetch(BaseUrl(code)).value.heading == Some(heading)
    ensures var t := RunTrace(code, fetch, clock);
      |t.requests| <= 9
      && (forall i :: 1 <= i < |t.requests| ==> t.requests[i] == PageUrl(BaseUrl(code), i))
      && (t.status == Completed ==> |t.requests| == 9)
  {
    EstimateOf150(heading);
    RunControlFlow(code, fetch, clock);
  }

  /** The data file lists companies in page order: every data line names a
      listing page the run requested, and the page numbers never decrease. */
  lemma RunDataInPageOrder(code: string, fetch: string -> Option<Page>, clock: Clock)
    ensures var t := RunTrace(code, fetch, clock);
      (forall i :: 0 <= i < |t.data| ==>
         1 <= t.data[i].page < |t.requests| && t.requests[t.data[i].page] == PageUrl(BaseUrl(code), t.data[i].page))
      && (forall i, j :: 0 <= i <= j < |t.data| ==> t.data[i].page <= t.data[j].page)
  {
    var baseUrl := BaseUrl(code);
    var first := fetch(baseUrl);
    if !HasContent(first) {
      RunTraceOfEmpty(code, fetch, clock);
    } else {
      var estimate := FindLastPageNumber(first.value.heading);
      if estimate.Raised? {
        RunTraceOfRaised(code, fetch, clock, estimate.error);
      } else {
        var lastPage := estimate.value;
        var page := Pages(baseUrl, code, fetch, clock.page);
        forall n: nat | 1 <= n <= lastPage
          ensures forall i :: 0 <= i < |page(n).data| ==> page(n).data[i].page == n
        {
          PageDataOnItsPage(baseUrl, n, fetch(PageUrl(baseUrl, n)), code, clock.page(n));
        }
        PagesDataInPageOrder(baseUrl, page, lastPage);
        RunTraceOfListing(code, fetch, clock, lastPage);
        ListingRequests(code, fetch, clock, lastPage);
      }
    }
  }

  lemma AppendAssoc<T>(a: seq<T>, b: seq<T>, c: seq<T>)
    ensures a + (b + c) == (a + b) + c
  {
  }

  /** The scraper for one code: its sinks and its HTTP session. */
  class Scraper {
    /** The lines written to `log_file`, one per `write` call. */
    var log: seq<LogLine>
    /** The lines written to `aziende_file`, one per `write` call. */
    var aziende: seq<Record>
    /** The URLs requested through the current `requests.Session`. */
    var session: seq<string>

    /** A scraper over two freshly opened (empty) files, with a new session. */
    constructor ()
      ensures log == [] && aziende == [] && session == []
    {
      log, aziende, session := [], [], [];
    }

    /** `get_page`: one GET through the session; every request error is
        reported as an absent response. */
    method GetPage(url: string, fetch: string -> Option<Page>) returns (source: Option<Page>)
      modifies this`session
      ensures session == old(session) + [url]
      ensures source == fetch(url)
    {
      session := session + [url];
      source := fetch(url);
    }

    /** `process_page`. */
    method ProcessPage(baseUrl: string, pageNumber: nat, source: Option<Page>, code: string, ts: string)
      returns (status: Status)
      modifies this`log, this`aziende
      ensures var t := PageTrace(baseUrl, pageNumber, source, code, ts);
        log == old(log) + t.log && aziende == old(aziende) + t.data && status == t.status
    {
      log := log + [Intent(ts, code, pageNumber)];
      if HasContent(source) {
        match source.value.table {
          case Some(table) =>
            var data := ExtractDataFromTable(table);
            if data.Raised? {
              return Aborted(data.error);
            }
            var records := data.value;
            var i := 0;
            while i < |records|
              invariant 0 <= i <= |records|
              invariant aziende == old(aziende) + DataLines(records[..i], code, pageNumber)
              invariant log == old(log) + [Intent(ts, code, pageNumber)]
            {
              assert records[..i + 1][..i] == records[..i];
              aziende := aziende + [Record(records[i], code, pageNumber)];
              i := i + 1;
            }
            assert records[..i] == records;
          case None =>
            log := log + [NotFound(code, pageNumber, baseUrl)];
        }
      } else {
        log := log + [Failed(code, pageNumber, baseUrl)];
      }
      status := Completed;
    }

    /** One pass of `get_all_pages`' loop: build the page's URL, fetch it,
        process the response. */
    method FetchAndProcess(baseUrl: string, pageNumber: nat, code: string, fetch: string -> Option<Page>, ts: string)
      returns (status: Status)
      modifies this
      ensures var page := PageTrace(baseUrl, pageNumber, fetch(PageUrl(baseUrl, pageNumber)), code, ts);
        session == old(session) + [PageUrl(baseUrl, pageNumber)] && log == old(log) + page.log
        && aziende == old(aziende) + page.data && status == page.status
    {
      var pageUrl := PageUrl(baseUrl, pageNumber);
      var pageSource := GetPage(pageUrl, fetch);
      status := ProcessPage(baseUrl, pageNumber, pageSource, code, ts);
    }

    /** `get_all_pages`: pages 1..lastPage, in order. */
    method GetAllPages(baseUrl: string, lastPage: nat, code: string, fetch: string -> Option<Page>, stamp: nat -> string)
      returns (status: Status)
      modifies this
      ensures var t := PagesTrace(baseUrl, Pages(baseUrl, code, fetch, stamp), lastPage);
        session == old(session) + t.requests && log == old(log) + t.log
        && aziende == old(aziende) + t.data && status == t.status
    {
      ghost var pages := Pages(baseUrl, code, fetch, stamp);
      var pageNumber := 1;
      ghost var done := PagesTrace(baseUrl, pages, 0);
      while pageNumber <= lastPage
        invariant 1 <= pageNumber <= lastPage + 1
        invariant done == PagesTrace(baseUrl, pages, pageNumber - 1)
        invariant done.status == Completed
        invariant session == old(session) + done.requests
        invariant log == old(log) + done.log
        invariant aziende == old(aziende) + done.data
      {
        ghost var prev := done;
        ghost var page := pages(pageNumber);
        status := FetchAndProcess(baseUrl, pageNumber, code, fetch, stamp(pageNumber));
        done := PagesTrace(baseUrl, pages, pageNumber);
        AppendAssoc(old(session), prev.requests, [PageUrl(baseUrl, pageNumber)]);
        AppendAssoc(old(log), prev.log, page.log);
        AppendAssoc(old(aziende), prev.data, page.data);
        if status.Aborted? {
          AbortIsFinal(baseUrl, pages, pageNumber, lastPage);
          return;
        }
        pageNumber := pageNumber + 1;
      }
      status := Completed;
    }

    /** The `if page_source:` branch of `run_scraper` once the estimate is
        known: log it, then run the page loop. */
    method ScrapeListing(code: string, lastPage: nat, fetch: string -> Option<Page>, clock: Clock)
      returns (status: Status)
      modifies this
      ensures var pages := PagesTrace(BaseUrl(code), Pages(BaseUrl(code), code, fetch, clock.page), lastPage);
        session == old(session) + pages.requests
        && log == old(log) + [Found(lastPage)] + [Calls(clock.calls, BaseUrl(code))] + pages.log
        && aziende == old(aziende) + pages.data && status == pages.status
    {
      var urlBase := BaseUrl(code);
      log := log + [Found(lastPage)];
      log := log + [Calls(clock.calls, urlBase)];
      status := GetAllPages(urlBase, lastPage, code, fetch, clock.page);
    }

    /** `run_scraper`, with a fresh session. */
    method RunScraper(code: string, fetch: string -> Option<Page>, clock: Clock) returns (status: Status)
      modifies this
      ensures log == old(log) + RunTrace(code, fetch, clock).log
      ensures aziende == old(aziende) + RunTrace(code, fetch, clock).data
      ensures session == RunTrace(code, fetch, clock).requests
      ensures status == RunTrace(code, fetch, clock).status
    {
      var start := Start(clock.start, code);
      log := log + [start];
      var baseUrl := BaseUrl(code);
      session := [];
      var source := GetPage(baseUrl, fetch);
      if HasContent(source) {
        var estimate := FindLastPageNumber(source.value.heading);
        if estimate.Raised? {
          RunTraceOfRaised(code, fetch, clock, estimate.error);
          return Aborted(estimate.error);
        }
        status := ScrapeListing(code, estimate.value, fetch, clock);
        ghost var pages := PagesTrace(baseUrl, Pages(baseUrl, code, fetch, clock.page), estimate.value);
        ghost var written := [start] + [Found(estimate.value)] + [Calls(clock.calls, baseUrl)] + pages.log;
        RunTraceOfListing(code, fetch, clock, estimate.value);
        AppendAssoc(old(log), [start], [Found(estimate.value)]);
        AppendAssoc(old(log), [start] + [Found(estimate.value)], [Calls(clock.calls, baseUrl)]);
        AppendAssoc(old(log), [start] + [Found(estimate.value)] + [Calls(clock.calls, baseUrl)], pages.log);
        if status.Aborted? {
          return;
        }
        AppendAssoc(old(log), written, [Done(code)]);
        log := log + [Done(code)];
        status := Completed;
      } else {
        RunTraceOfEmpty(code, fetch, clock);
        AppendAssoc(old(log), [start], [Done(code)]);
        log := log + [Done(code)];
        status := Completed;
      }
    }
  }
}
