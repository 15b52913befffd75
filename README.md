# tkosubs: subdomain takeover scan, modelled in Dafny

tkosubs reads a list of subdomains and a fingerprints file of provider
rows (provider name, CNAME pattern, error-signature pattern, "http only"
flag). For each subdomain it resolves the CNAME and reads the fingerprint
rows in order. A row whose CNAME pattern matches leads to a GET of the
subdomain, over `http://` when the row's fourth field is `"true"` and
over `https://` otherwise. A transport error ends the subdomain with
"Can't reach the domain ...". A body that matches the row's error
signature confirms a dangling record. The provider is then dispatched:
`github` and `heroku` get a takeover attempt, any other provider gets a
"not supported" notice. If no row confirms anything the subdomain is
reported "Not found as dangling ...".

All subdomains are read through one csv reader. Rows consumed for one
subdomain are never seen by the next.

The model has two modules.

- `Tkosubs` (`tkosubs.dfy`) holds the following.
  - The `Record` row.
  - A `World` of oracles: CNAME lookup, "pattern compiles", "pattern
    matches text" and the GET.
  - The fixed result lines and the `Takeover` dispatch.
  - The csv reader as a class `RecordReader`: a fixed sequence of rows
    and a cursor `pos` that `Read` advances in place.
  - `Check` and `ScanDomains`, the imperative loops of `check` and
    `main`. Each is proved against a pure function: `Scan` for one
    domain, `Run` for a list of domains sharing the cursor.
  - Lemmas about those two functions.
- `SharedCursor` (`shared_cursor.dfy`) holds the finding below: a
  concrete input where the shared cursor loses a takeover, and the
  corrected loop.

DNS, HTTP and the regular-expression engine are parameters of the model.
Three things are NOT part of this model: the code behind
`net.LookupCNAME`, `http.Client` and `regexp`.

Three behaviours of the code are worth stating up front.
- The scan of one domain depends on the domains before it, through the
  shared reader (see Findings).
- A failed read of a response body calls `log.Fatal`
  (tkosubs.go:103-106), which ends the process rather than only that
  domain's probe.
- A failed CNAME lookup gives "" (the error is discarded at
  tkosubs.go:65), and every row's CNAME pattern is still matched against
  that empty string, so a pattern that matches "" is probed like any
  other row. A host with no CNAME record that does resolve gets its own
  canonical name back, and the patterns are matched against that name.
  In the model the lookup result is just a string, so both cases are
  covered.

## Model

| member | source | states |
|---|---|---|
| `Tkosubs.Scheme` | tkosubs.go:92-95 | the probe uses `http://` exactly when the fourth field is `"true"`, and `https://` for every other value |
| `Tkosubs.ProbeUrl` | tkosubs.go:92-97 | the URL requested for a matching row is `http://` + domain when the row's fourth field is `"true"`, and `https://` + domain otherwise |
| `Tkosubs.TakeoverAttemptedShape` | tkosubs.go:209 | `TakeoverAttempted`, the line `githubcreate` and `herokucreate` return (also tkosubs.go:224), starts with "Please check ", ends with '.', and is 73 characters longer than the domain |
| `Tkosubs.NotSupportedShape` | tkosubs.go:126 | `NotSupported`, the line for a confirmed provider the tool cannot take over, is 113 characters longer than the provider name, starts with 'T', ends with '.', and holds the provider name at offset 89 |
| `Tkosubs.Takeover` | tkosubs.go:118-127 | `github` and `heroku` both give "Please check <domain> after a few minutes to ensure that it has been taken over.."; any other provider gives the "does not support taking over <provider> websites" line |
| `Tkosubs.TakeoverReportsSupport` | tkosubs.go:118-127 | the dispatch line starts with "Please check " exactly when the provider is supported; an unsupported provider's name stands at a fixed offset of its line |
| `Tkosubs.NotSupportedInjective` | tkosubs.go:126 | the unsupported-provider line determines the provider |
| `Tkosubs.MessageDeterminesOutcome` | tkosubs.go:97-127 | for one domain, the returned line determines the outcome (unreachable, not found, dangling at a provider); only the two supported providers share a line |
| `Tkosubs.MessageShape` | tkosubs.go:97-115 | `Message`, the line `check` returns, is never empty; "Can't reach the domain " + domain starts with 'C'; the not-found line (tkosubs.go:115) ends with 's' and is 69 characters longer than the domain; a dangling outcome's line (tkosubs.go:111) ends with '.' and starts with 'P' for a supported provider and 'T' otherwise |
| `Tkosubs.Visit` | tkosubs.go:71-113 | one row of `check`'s loop: it ends the scan only if the row's CNAME pattern compiles and matches; it ends it as unreachable exactly when that GET fails; it ends it as dangling at the row's provider exactly when the body matches the row's error signature; otherwise the next row is read |
| `Tkosubs.Scan` | tkosubs.go:66-115 | the record loop from the cursor: the cursor never moves back, moves at least one row unless at EOF, and the outcome is about the scanned domain |
| `Tkosubs.ScanIsFirstStop` | tkosubs.go:66-115 | the scan ends at the first row at or after the cursor that ends it, and that row is the last consumed; without one the cursor is at EOF and the outcome is not found |
| `Tkosubs.SkipsUnmatchedRecord` | tkosubs.go:76-77 | a row whose CNAME pattern does not match, or does not compile, is passed over whatever the network answers, and the cursor moves one row |
| `Tkosubs.UnreachableEndsScan` | tkosubs.go:97-101 | a failed GET for a CNAME-matching row ends the scan with "Can't reach the domain " + domain, with the cursor just past that row |
| `Tkosubs.UnmatchedBodyContinues` | tkosubs.go:109-113 | a body without the error signature leaves the scan to the next row |
| `Tkosubs.FirstStopWins` | tkosubs.go:76-111 | the earliest row from the cursor whose probe is unreachable or confirmed decides the outcome and is the last row consumed |
| `Tkosubs.ConfirmedRoutesToTakeover` | tkosubs.go:109-111 | the first confirmed row gives `takeover(domain, provider name of that row)` |
| `Tkosubs.ExhaustedScanNotFound` | tkosubs.go:66-115 | with no ending row left the cursor reaches EOF and the line is domain + " Not found as dangling for any of the common content hosting websites" |
| `Tkosubs.ScanProbesOnlyMatchedRecords` | tkosubs.go:76-97 | the scan's result depends on the network only at the URLs of rows whose CNAME pattern matches |
| `Tkosubs.ScanReadsNothingPastCursor` | tkosubs.go:97-111 | after an early return, the rows past the cursor were not read: replacing them leaves the scan unchanged |
| `Tkosubs.RecordReader.constructor` | tkosubs.go:42 | a new reader is at the first row |
| `Tkosubs.RecordReader.Read` | tkosubs.go:67-70 | returns the row under the cursor and advances by one; at EOF returns EOF and stays there |
| `Tkosubs.Check` | tkosubs.go:64-116 | the loop of `check` over the shared reader returns the line of `Scan` from the reader's cursor and leaves the cursor where `Scan` ends |
| `Tkosubs.Run` | tkosubs.go:44-48 | one outcome per domain, the i-th about the i-th domain; the cursor never moves back across domains |
| `Tkosubs.RunSplit` | tkosubs.go:44-48 | processing d1 then d2 equals processing d2 from the cursor d1 left |
| `Tkosubs.RunAtEof` | tkosubs.go:66-70 | with the reader at EOF every domain is reported not found and no row is read |
| `Tkosubs.NotFoundIsSticky` | tkosubs.go:42-48 | once one domain is not found, every later domain is not found and the cursor stays at EOF |
| `Tkosubs.ScanDomains` | tkosubs.go:44-48 | the loop of `main` returns exactly one line per domain, in input order, namely the lines of `Run`, and leaves the cursor where `Run` ends |
| `SharedCursor.SharedCursorMissesSecondDomain` | tkosubs.go:42-47 | two domains pointing at the same dangling GitHub page: the first is taken over, the second is reported not found; scanning each against the whole registry confirms both |
| `SharedCursor.FreshOutcomesIndependent` | tkosubs.go:64-115 | with the reader rewound per domain, the outcomes of two lists scanned one after the other are those of each list on its own, and each domain's outcome is that of a one-domain run on a new reader |
| `SharedCursor.FreshNotFoundIffNoStop` | tkosubs.go:64-115 | with the reader rewound per domain, a domain is not found exactly when no row of the registry ends its scan |
| `SharedCursor.ScanDomainsRewound` | tkosubs.go:44-48 | the corrected loop returns, per domain in order, the line of a scan of the whole registry, and leaves the cursor where the scan of the last domain from the first row ends (unchanged for no domains) |

## Left out

- `IsReachable` (tkosubs.go:52-62) and its 5-second timer are not modelled, so there is no "timedout" outcome. `ScanDomains` calls `Check` directly. `check(...)` is evaluated before the `select`, so the timer cannot cut a scan short.
- Opening the files, `os.Args`, `gotenv.Load` and csv parsing (tkosubs.go:25-42) are I/O. The registry is an already-parsed sequence of four-field rows. A row the csv reader would reject, or one with fewer than four fields (a panic in the source), is outside the model.
- `net.LookupCNAME` (tkosubs.go:65) is the oracle `lookupCname`; a lookup failure is the string "".
- The HTTP client set-up is network plumbing, replaced by the oracle `get`: dial and TLS timeouts and `InsecureSkipVerify` (tkosubs.go:78-90). The oracle is a function, so it models one fixed answer per URL for the whole run.
- A failing `ioutil.ReadAll` (tkosubs.go:103-106) calls `log.Fatal` and ends the process, so it is not an outcome of the model.
- Go's `regexp` semantics are the oracles `compiles` and `search`. `MatchString` is false for a pattern that does not compile.
- The printed side lines are not part of the returned result, so they are not modelled: the empty line before "Can't reach" (tkosubs.go:99) and the "Found: Misconfigured" line (tkosubs.go:125).
- `githubcreate` and `herokucreate` (tkosubs.go:129-225) make GitHub and Heroku API calls and print progress lines. These are irreversible external effects through libraries that are not part of this model. Only the line both return (tkosubs.go:209, tkosubs.go:224) is modelled, as `TakeoverAttempted`.
- Takeover: always gives `TakeoverAttempted` for `github`, whereas `githubcreate` ignores the errors of its API calls, apart from logging a rate limit, and dereferences their results (tkosubs.go:147-154, tkosubs.go:205-207). Any failed call, not only a rate limit, makes it dereference nil: the process panics, the line at tkosubs.go:209 is never returned and the remaining domains are never scanned. The model has no panicking outcome, because whether a call fails depends on the GitHub service, which is not part of this model. `herokucreate` discards the error of `DomainCreate` (tkosubs.go:222) and returns its line whatever happened, which the model matches.
- `RecordReader.Rewind` has no counterpart in tkosubs.go. It stands for re-opening the fingerprints file and exists only for the corrected loop.

## Findings

| source | as written | input that shows it | evidently intended | confidence | as-written member | corrected member |
|---|---|---|---|---|---|---|
| tkosubs.go:42-47 | one csv reader is built once and passed to `check` for every domain, so each domain only sees the rows earlier domains left unread | registry `github,x.github.io,There isn't a GitHub Pages site here,true`; domains `a.example.com`, `b.example.com`, both CNAME `x.github.io` and both serving that error page: `a` is taken over, `b` is reported "Not found as dangling" | every domain is scanned against the whole registry, independently of the others | high; not executed | `SharedCursor.SharedCursorMissesSecondDomain` | `SharedCursor.ScanDomainsRewound` |
