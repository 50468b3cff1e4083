# aziende-scrapper, modelled in Dafny

For each industry classification (Ateco) code, the `Scraper` of `aziende-scrapper.py` does the following:

1. It writes a start line to its log file, opens a fresh HTTP session and fetches the first listing page of `https://registroaziende.it/ateco/<code>`.
2. If that page has content, it reads the `<number> aziende` heading and guesses the number of pages: about one per twenty results, at most 200.
3. It then fetches and processes pages 1..last in order. Each page writes an intent line. Then it writes a failure line or a missing-table line, or one data line per company row of the results table.
4. It ends with a completion line.

An exception that the code does not catch stops the run where it happens. There are three: `IndexError` or `AttributeError` from an unreadable row, and `ValueError` from a count that `int()` cannot read. That is a count made only of dots, which reaches `int("")`, or one with more than 4300 digits.

The model has four modules:

- `Py` (`py.dfy`): the Python built-ins the core relies on.
  - `Option` and `Result`.
  - The exceptions that can escape the core.
  - `str()` of a non-negative integer, and `int()` of a digit string.
- `PageCount` (`pagecount.dfy`): `find_number_of_aziende` and `find_last_page_number`.
  - The regular expression `([\d.]+)\s+aziende` with `re.IGNORECASE` is given two ways. A greedy scanner, `MatchAt` plus `SearchFrom`, is used by the code. A declarative reading, `MatchesWithGroup`, is proved equivalent to it.
  - The arithmetic estimate and its cap are proved as bounds. The bounds determine the estimate uniquely.
- `Extraction` (`extraction.dfy`): `extract_data_from_table`.
  - It works on already-parsed rows: cells with their stripped text and their anchors.
  - Its loop is proved against a recursive specification, `Extracted`.
  - A row with too few cells raises `IndexError`. A missing anchor raises `AttributeError`. These happen in the order the source touches the row.
- `AziendeScrapper` (`scraper.dfy`): the class `Scraper`, with three fields.
  - `log` and `aziende` are the two output files, as the sequence of lines written to each.
  - `session` is the URLs requested through the current `requests.Session`.
  - The methods `GetPage`, `ProcessPage`, `GetAllPages` and `RunScraper` follow `get_page`, `process_page`, `get_all_pages` and `run_scraper` statement by statement. Each is proved to leave exactly the state given by the functions below:
    - `PageTrace`: one page.
    - `PagesTrace`: the page loop, over a function `Pages` that gives what each page does.
    - `RunTrace`: the whole run.
  - The lemmas state what the source promises about those functions.

The network is the parameter `fetch`, mapping a URL to the response `get_page` returns. It is `None` when the request failed. A response carries its text and what the HTML parser finds in it: the `h2` heading text and the rows of the table with id `t2`. The timestamps are the parameter `clock`.

Each line is recorded as the `write` call that produced it:

- a `LogLine` value for the log file;
- a `Record` value for the data file.

The exact text written is given by `Text` and `RecordText`, which reproduce the source's f-strings.

Two places in the code behave differently from what a reader might expect, and the model follows the code:

- **Retries.** The `@retry` decorator (aziende-scrapper.py:20) suggests that failed fetches are retried with backoff. In the code, `get_page` (aziende-scrapper.py:22-35) catches every `RequestException` and returns `None`, so no request error reaches the decorator. A failed fetch is therefore a single request that yields `None`.
- **Unparsable counts.** The `return 1` default (aziende-scrapper.py:50) covers only a missing heading or a heading without a match. A count made only of dots, such as `". aziende"`, is matched. Dropping its dots gives `int("")`, which raises `ValueError` and ends the run after its start line. `CountOfDotsRaises` and `RunControlFlow` state this. A count with more than 4300 digits raises `ValueError` in the same way (`LongCountRaises`).

## Model

| member | source | states |
|---|---|---|
| Py.NatToString | aziende-scrapper.py:39 | `str(n)`: decimal digits only, one digit exactly for n < 10, no leading zero |
| Py.DecimalValue | aziende-scrapper.py:49 | the value `int()` reads from a digit string; no ensures of its own, tied to `str()` by `DecimalValueOfNatToString` and to leading zeros by `LeadingZeroIgnored` |
| Py.ParseInt | aziende-scrapper.py:49 | `int(s)` on a digit string raises exactly when `s` is empty or has more than 4300 digits, and then raises `ValueError` |
| Py.ParseIntOfNatToString | aziende-scrapper.py:48-49 | `int(str(n)) == n` for every n ≥ 0 whose decimal form is within the digit limit |
| Py.LeadingZeroIgnored | aziende-scrapper.py:49 | a leading zero does not change the value `int` reads; `CountWithLeadingZero` uses it on a count |
| Py.IsDigit | aziende-scrapper.py:46 | `\d` read as the ASCII digits; no ensures of its own, pinned through `IsDigitOrDot` by `GroupEnd`'s ensures, with the Unicode digits listed under the `PageCount.NumberOfAziende:` line of "Left out" |
| PageCount.IsDigitOrDot | aziende-scrapper.py:46 | the class `[\d.]`; no ensures of its own, pinned by `GroupEnd`'s ensures and `GroupEndIs` |
| PageCount.IsSpace | aziende-scrapper.py:46 | `\s` as Python's `str.isspace()` characters; no ensures of its own, pinned by `SpacesEnd` and `SpacesEndIs` |
| PageCount.MatchesIgnoringCase | aziende-scrapper.py:46 | one letter of `aziende` under `re.IGNORECASE`; no ensures of its own, used by `KeywordAt` and pinned by `MatchAtIsPattern` |
| PageCount.KeywordAt | aziende-scrapper.py:46 | the literal `aziende` under `re.IGNORECASE` at one position; no ensures of its own, part of both `MatchAt` and `MatchesWithGroup`, which `MatchAtIsPattern` proves equal |
| PageCount.MatchesWithGroup | aziende-scrapper.py:46 | the declarative reading of the pattern at one position; no ensures of its own, the reference `MatchAtIsPattern` proves the scanner against |
| PageCount.GroupEnd | aziende-scrapper.py:46 | the greedy `[\d.]+` run starting at i: every character in it is a digit or dot, and the one after it is not |
| PageCount.SpacesEnd | aziende-scrapper.py:46 | the greedy `\s+` run: every character in it is Python white space, and the one after it is not |
| PageCount.GroupEndIs | aziende-scrapper.py:46 | any maximal digit-or-dot run ends where `GroupEnd` says |
| PageCount.SpacesEndIs | aziende-scrapper.py:46 | any maximal white-space run ends where `SpacesEnd` says |
| PageCount.MatchAt | aziende-scrapper.py:46 | the scanner for one start position; no ensures of its own, tied to the pattern by `MatchAtIsPattern` |
| PageCount.MatchAtIsPattern | aziende-scrapper.py:46 | i. the scanner finds a match at i exactly when the pattern has one there (both directions), with the same group end. ii. The group end is unique |
| PageCount.SearchFrom | aziende-scrapper.py:46 | `re.search`: its result matches, and no earlier position does; `None` means no position matches |
| PageCount.SearchGroup | aziende-scrapper.py:46-48 | `group(1)` is a non-empty string of digits and dots |
| PageCount.RemoveDots | aziende-scrapper.py:48 | `.replace('.', '')` leaves no dot and never lengthens; a digits-and-dots token becomes all digits |
| PageCount.RemoveDotsOfDot | aziende-scrapper.py:48 | a lone dot is removed; with `RemoveDotsAppend` and `RemoveDotsOfDigits` this fixes `replace('.', '')` on every digits-and-dots token |
| PageCount.RemoveDotsAppend | aziende-scrapper.py:48 | removing dots distributes over concatenation |
| PageCount.RemoveDotsOfDigits | aziende-scrapper.py:48 | a string of digits is left unchanged |
| PageCount.NumberOfAziende | aziende-scrapper.py:43-50 | i. No heading, or no match in it, gives 1. ii. It raises exactly when the match has no digits or more than 4300 of them, and then raises `ValueError` |
| PageCount.GroupOfLeadingNumber | aziende-scrapper.py:46-48 | a heading made of a number, white space, the keyword and anything else has that number as its group |
| PageCount.CountOfLeadingNumber | aziende-scrapper.py:46-49 | such a heading counts the number with its dots dropped, or raises `ValueError` if it has no digits or more than 4300 |
| PageCount.CountOfLeftmostMatch | aziende-scrapper.py:46-49 | a heading whose leftmost match starts at i, after any other text, has that match's group as `group(1)` and counts it with its dots dropped |
| PageCount.GroupThousandsShape | aziende-scrapper.py:48 | a count printed with a dot every three digits is made of digits and dots; dropping the dots gives back the digits |
| PageCount.CountOfFormattedHeading | aziende-scrapper.py:43-50 | the heading `"<n with thousands dots> aziende"` reads back as exactly n, for every n of at most 4300 digits |
| PageCount.CountWithSeparator | aziende-scrapper.py:46-49 | `"1.234 aziende"` counts 1234 |
| PageCount.CountWithLeadingZero | aziende-scrapper.py:46-49 | `"0.<n with thousands dots> aziende"` counts n: the leading `0.` is matched, its dot dropped and the zero ignored by `int` |
| PageCount.LongCountRaises | aziende-scrapper.py:48-49 | a count of more than 4300 digits raises `ValueError` instead of counting |
| PageCount.CountOfDotsRaises | aziende-scrapper.py:48-49 | `". aziende"` raises `ValueError` instead of counting |
| PageCount.LastPageNumber | aziende-scrapper.py:56-58 | i. The estimate lies in [1, 200]. ii. Below the cap, 20·(p−1) ≤ T+9 < 20·p, which fixes p = (T+9) div 20 + 1. iii. It is 200 exactly when T ≥ 3971 |
| PageCount.LastPageMonotone | aziende-scrapper.py:56-58 | more results never give fewer pages |
| PageCount.FindLastPageNumber | aziende-scrapper.py:52-58 | i. The estimate lies in [1, 200]. ii. It fails exactly when reading the count raises. iii. No heading gives 1 page |
| PageCount.DefaultEstimate | aziende-scrapper.py:43-58 | without a heading, or without a match in it, the estimate is 1 page |
| PageCount.EstimateOf150 | aziende-scrapper.py:52-58 | `"150 aziende"` gives 8 pages |
| Extraction.FirstWithClass | aziende-scrapper.py:65 | `find("a", class_=…)`: the first anchor carrying the class, or none when no anchor carries it |
| Extraction.Find | aziende-scrapper.py:65-68 | `find("a", class_=…)` on one cell; no ensures of its own, pinned by `FirstWithClass` |
| Extraction.Href | aziende-scrapper.py:66 | `.get("href", "")`: the link, or `""` when the anchor has none; no ensures of its own, read by `ExtractRow`'s record ensures |
| Extraction.WellFormedRow | aziende-scrapper.py:64-68 | the rows the loop body reads without raising; no ensures of its own, tied to the loop body by `ExtractRow` (its first ensures, both directions) |
| Extraction.ExtractRow | aziende-scrapper.py:64-76 | i. A row gives a record exactly when it has four cells and the three anchors. ii. Otherwise it raises `IndexError` or `AttributeError`, and with four cells always `AttributeError`. iii. Each record field comes from its fixed column |
| Extraction.DataRows | aziende-scrapper.py:63 | `rows[1:]`: every row but the first, in order |
| Extraction.ExtractRows | aziende-scrapper.py:63-77 | the loop over the data rows; no ensures of its own, tied down by `ExtractRowsSpec` and `RaisedPrefixIsFinal` |
| Extraction.Extracted | aziende-scrapper.py:60-77 | what the method returns for a table; no ensures of its own, tied down by `ExtractedRecords` and `ExtractDataFromTable` |
| Extraction.ExtractRowsSpec | aziende-scrapper.py:63-77 | i. The loop succeeds exactly when every row is well formed, and gives one record per row in row order. ii. Otherwise its exception is that of the first malformed row |
| Extraction.RaisedPrefixIsFinal | aziende-scrapper.py:63-69 | once a row raises, later rows change nothing |
| Extraction.ExtractedRecords | aziende-scrapper.py:60-77 | i. The table gives records exactly when every row after the header is well formed. ii. There are then max(\|rows\|−1, 0) records in row order, record i from row i+1 |
| Extraction.ExtractDataFromTable | aziende-scrapper.py:60-77 | the loop returns exactly `Extracted(rows)`, records or the first row's exception |
| AziendeScrapper.HasContent | aziende-scrapper.py:84 | `if page_source:` (here and at line 116): present and not the empty string; no ensures of its own, used by `PageOutput` and `RunControlFlow` |
| AziendeScrapper.BaseUrl | aziende-scrapper.py:109 | `https://registroaziende.it/ateco/<code>`; no ensures of its own, the first request in `ListingRequests` and `RunControlFlow` |
| AziendeScrapper.PageUrl | aziende-scrapper.py:39 | the URL of listing page n; no ensures of its own, the requests of `PagesRequested` and `PagesInOrder` |
| AziendeScrapper.Text | aziende-scrapper.py:81-129 | every log write ends with a newline |
| AziendeScrapper.RecordText | aziende-scrapper.py:91 | every data write ends with a newline |
| AziendeScrapper.AziendaLineOmitsUrl | aziende-scrapper.py:91 | a company's link never appears in its data line: changing it leaves the line unchanged |
| AziendeScrapper.DataLines | aziende-scrapper.py:90-93 | one data line per record, in record order, carrying the code and page number |
| AziendeScrapper.PageTrace | aziende-scrapper.py:79-101 | what one page writes; no ensures of its own, tied down by `PageOutput` and `PageShape`, and to the method by `Scraper.ProcessPage` |
| AziendeScrapper.PageOutput | aziende-scrapper.py:79-101 | i. A page writes its intent line first. ii. Then exactly one of: a failure line; a missing-table line; or one data line per row after the header, only when every such row is readable, else an exception and no data |
| AziendeScrapper.PageDataOnItsPage | aziende-scrapper.py:90-93 | every data line of a page carries that page's number |
| AziendeScrapper.PageShape | aziende-scrapper.py:80-101 | every page writes one or two log lines |
| AziendeScrapper.PagesTrace | aziende-scrapper.py:37-41 | what the page loop leaves behind; no ensures of its own, tied down by `AbortIsFinal`, `PagesRequested`, `PagesComplete` and `PagesInOrder`, and to the method by `Scraper.GetAllPages` |
| AziendeScrapper.Pages | aziende-scrapper.py:39-41 | one turn of the page loop as a value, page n's URL fetched then processed; no ensures of its own, tied down by `PagesInOrder` and to the method by `Scraper.FetchAndProcess` and `Scraper.GetAllPages` |
| AziendeScrapper.AbortIsFinal | aziende-scrapper.py:38-41 | after a page raises, no further page is requested or written |
| AziendeScrapper.PagesRequested | aziende-scrapper.py:38-41 | i. The loop requests page URLs 1, 2, … in order, at most k, all k unless a page raises. ii. A raising page is the last one requested. iii. In total there are between one and two log lines per page requested (the per-page bound is `PageShape`) |
| AziendeScrapper.PagesComplete | aziende-scrapper.py:38-41 | the loop completes exactly when every page 1..k completes |
| AziendeScrapper.PagesDataInPageOrder | aziende-scrapper.py:38-41 | when each page labels its data lines with its number, the loop's data lines carry numbers of pages it requested, never decreasing, and all k pages are requested when it completes |
| AziendeScrapper.PagesInOrder | aziende-scrapper.py:37-41 | i. `get_all_pages` requests pages 1, 2, … in order. ii. It completes exactly when no page raises, and then all k were requested; if a page raises, it is the last one requested. iii. In total between one and two log lines per page requested |
| AziendeScrapper.RunTrace | aziende-scrapper.py:103-131 | what one run leaves behind; no ensures of its own, tied down by `ListingLog`, `ListingRequests` `RunControlFlow` and `RunDataInPageOrder`, and to the method by `Scraper.RunScraper` |
| AziendeScrapper.ListingLog | aziende-scrapper.py:116-131 | i. A listing run logs the start, the estimate and the start of the page loop, in that order. ii. If it completes, its completion line comes last |
| AziendeScrapper.ListingRequests | aziende-scrapper.py:109-127 | i. A listing run requests the first page, then pages 1..last in order. ii. It requests all of them when it completes |
| AziendeScrapper.RunControlFlow | aziende-scrapper.py:103-131 | i. The start line comes first and, when the run completes, the completion line comes last. ii. An empty first page means no page count and no pages. iii. A count that raises means only the start line and no pages. iv. Otherwise at most pages 1..estimate follow the first request, in order, and all of them when the run completes |
| AziendeScrapper.RunDataInPageOrder | aziende-scrapper.py:103-131 | every data line of a run names a listing page the run requested, and the page numbers of the data file never decrease |
| AziendeScrapper.RunOf150 | aziende-scrapper.py:114-127 | a first page headed `"150 aziende"` leads, after the first request, to requests for at most pages 1..8, in order, and all of them when the run completes |
| AziendeScrapper.Scraper.constructor | aziende-scrapper.py:14-18 | a new scraper has two empty files and a session that requested nothing |
| AziendeScrapper.Scraper.GetPage | aziende-scrapper.py:21-35 | one request through the session; the response, or `None` on any request error |
| AziendeScrapper.Scraper.ProcessPage | aziende-scrapper.py:79-101 | the files grow by exactly `PageTrace`'s lines, and the session is untouched |
| AziendeScrapper.Scraper.FetchAndProcess | aziende-scrapper.py:39-41 | one pass of the page loop: request page n's URL, then process its response |
| AziendeScrapper.Scraper.GetAllPages | aziende-scrapper.py:37-41 | session and files grow by exactly `PagesTrace`'s requests and lines, stopping at a page that raises |
| AziendeScrapper.Scraper.ScrapeListing | aziende-scrapper.py:118-127 | logs the estimate and the start of the page loop, then runs the loop |
| AziendeScrapper.Scraper.RunScraper | aziende-scrapper.py:103-131 | the log and data files grow by exactly `RunTrace`'s lines; the new session holds exactly its requests; the status is its outcome |

## Left out

- HTTP, `requests` and `fake_useragent` (aziende-scrapper.py:15-16, 23-25) are the parameter `fetch`. A response is its text plus what the parser finds in it. The request headers are not modelled.
- The `@retry` decorator (aziende-scrapper.py:20) is not modelled for request errors, because no request error reaches it: `get_page` catches every `RequestException` and returns `None`.
- Errors inside `get_page` that are not request errors, such as one raised by `self.user_agent.random` (aziende-scrapper.py:23), are not modelled. `@retry` would make up to 10 attempts in all (`stop_max_attempt_number=10`), so at most 9 retries with exponential waits, and then re-raise.
- BeautifulSoup parsing (aziende-scrapper.py:44, 62, 64, 85-86, 117) is given as its results. These are the stripped `h2` text, the `tr` rows and `td` cells of table `t2`, and each cell's anchors with their classes, `href` and text. `find` is read as the first anchor, in document order, whose class list contains the class.
- `print` output (aziende-scrapper.py:28-34, 54, 92, 96, 100, 106, 120, 124, 130) is console output and changes no state.
- `datetime.now()` timestamps (aziende-scrapper.py:80, 104, 123) are the parameter `clock`. Its readings are given per run and per page number, and their format is not modelled.
- Folder creation, opening the two files, `close_driver` and `run_scraper_for_code` (aziende-scrapper.py:133-147) are file-system plumbing. A new `Scraper` starts with two empty files, as opening them with mode `"w"` gives.
- The `ProcessPoolExecutor` fan-out over the codes read from `ATECO.txt`, and the global `current_date` (aziende-scrapper.py:149-156), are process-level concurrency and file input. The model is one run for one code.
- Py.ParseInt: 4300 is the default of `sys.get_int_max_str_digits()`. A configured limit (`PYTHONINTMAXSTRDIGITS`) and Python versions without the limit are not modelled. The limit counts every digit, leading zeros included.
- AziendeScrapper.RecordText: the fields taken from the page, such as a company name, may themselves hold newlines, so a data write is promised only to end with a newline, not to be a single line.
- PageCount.NumberOfAziende: `\d` is read as the ASCII digits `0`-`9`. Python's `\d` on `str` also accepts other Unicode decimal digits, and `int` reads them too.
- PageCount.MatchesIgnoringCase: the case-insensitive keyword match accepts each letter, its ASCII capital, and for `i` also `İ` (U+0130) and `ı` (U+0131). No other Unicode case folding is modelled.
- An exception escaping `run_scraper` is returned as the status `Aborted`, with the lines written up to that point. It then ends the per-code worker, and the executor drops it; that part is not modelled.
