/**
  A model of the subdomain-takeover scanner in tkosubs.go.

  The repository's own logic is the scan of the fingerprints file for one
  domain (`check`), the dispatch on the provider that was found (`takeover`)
  and the loop in `main` that feeds every domain through ONE csv reader.
  DNS, HTTP and the regular-expression engine are oracles bundled in a
  `World`; the csv reader is a class whose cursor the scan advances in place.
 */
module Tkosubs {

  datatype Option<T> = None | Some(value: T)

  /** One row of the fingerprints file: provider name, CNAME pattern,
      error-signature pattern and the "access over plain http" flag. */
  datatype Record = Record(name: string, cnamePattern: string, errorPattern: string, httpOnly: string)

  /** What `client.Get` yields: a transport error, or a body that was read. */
  datatype Response = Unreachable | Body(text: string)

  /** The code the model cannot see.
      lookupCname: net.LookupCNAME, with "" when the lookup fails;
      compiles:    whether a pattern is a valid regular expression;
      search:      whether a compiled pattern matches somewhere in a text;
      get:         the response to a GET of a URL. */
  datatype World = World(
    lookupCname: string -> string,
    compiles: string -> bool,
    search: (string, string) -> bool,
    get: string -> Response)

  /** regexp.MatchString with its error dropped: a pattern that does not
      compile matches nothing. */
  predicate MatchString(w: World, pattern: string, text: string)
  {
    w.compiles(pattern) && w.search(pattern, text)
  }

  /** The protocol prefix chosen from the fourth field of a record. */
  function Scheme(httpOnly: string): (protocol: string)
    ensures protocol == "http://" <==> httpOnly == "true"
    ensures protocol == "http://" || protocol == "https://"
  {
    if httpOnly == "true" then "http://" else "https://"
  }

  /** The URL probed for a domain whose CNAME matched record r. */
  function ProbeUrl(r: Record, domain: string): (url: string)
    ensures r.httpOnly == "true" ==> url == "http://" + domain
    ensures r.httpOnly != "true" ==> url == "https://" + domain
  {
    Scheme(r.httpOnly) + domain
  }

  // ---------------------------------------------------------------------
  // Takeover dispatch and the result lines

  /** The providers for which the tool attempts a takeover. */
  predicate Supported(provider: string)
  {
    provider == "github" || provider == "heroku"
  }

  /** The line returned by both githubcreate and herokucreate. */
  function TakeoverAttempted(domain: string): string
  {
    "Please check " + domain + " after a few minutes to ensure that it has been taken over.."
  }

  /** The line returned for a confirmed provider the tool cannot take over. */
  function NotSupported(provider: string): string
  {
    "This can potentially be taken over. " + "Unfortunately, the tool does not support taking over "
    + provider + " websites at the moment."
  }

  function Takeover(domain: string, provider: string): (line: string)
    ensures Supported(provider) ==> line == TakeoverAttempted(domain)
    ensures !Supported(provider) ==> line == NotSupported(provider)
  {
    if provider == "github" then TakeoverAttempted(domain)
    else if provider == "heroku" then TakeoverAttempted(domain)
    else NotSupported(provider)
  }

  /** The three ways the scan of one domain ends. */
  datatype Outcome =
    | CantReach(domain: string)
    | Dangling(domain: string, provider: string)
    | NotFound(domain: string)

  /** The string `check` returns for an outcome. */
  function Message(o: Outcome): string
  {
    match o
    case CantReach(d) => "Can't reach the domain " + d
    case Dangling(d, p) => Takeover(d, p)
    case NotFound(d) => d + " Not found as dangling for any of the common content hosting websites"
  }

  /** lines are the returned strings of the outcomes os, one for one and in order. */
  predicate LinesOf(lines: seq<string>, os: seq<Outcome>)
  {
    |lines| == |os| && forall i :: 0 <= i < |os| ==> lines[i] == Message(os[i])
  }

  lemma LinesSnoc(lines: seq<string>, os: seq<Outcome>, line: string, o: Outcome)
    requires LinesOf(lines, os) && line == Message(o)
    ensures LinesOf(lines + [line], os + [o])
  {
    forall i | 0 <= i < |os| + 1
      ensures (lines + [line])[i] == Message((os + [o])[i])
    {
      if i < |os| {
        assert (lines + [line])[i] == lines[i] && (os + [o])[i] == os[i];
      }
    }
  }

  lemma TakeoverAttemptedShape(domain: string)
    ensures var l := TakeoverAttempted(domain);
      |l| == |domain| + 73 && l[..13] == "Please check " && l[0] == 'P' && l[|l| - 1] == '.'
  {
    var l := TakeoverAttempted(domain);
    assert l == "Please check " + (domain + " after a few minutes to ensure that it has been taken over..");
  }

  lemma NotSupportedShape(provider: string)
    ensures |NotSupported(provider)| == |provider| + 113
    ensures NotSupported(provider)[0] == 'T'
    ensures NotSupported(provider)[|provider| + 112] == '.'
    ensures NotSupported(provider)[89..89 + |provider|] == provider
  {
    var head := "This can potentially be taken over. " + "Unfortunately, the tool does not support taking over ";
    var tail := " websites at the moment.";
    var l := NotSupported(provider);
    assert l == head + provider + tail;
    assert |head| == 89 && |tail| == 24;
    SliceMiddle(head, provider, tail);
    assert l[0] == head[0];
    assert l[|l| - 1] == tail[23];
  }

  lemma TakeSnoc<T>(s: seq<T>, i: nat)
    requires i < |s|
    ensures s[..i + 1] == s[..i] + [s[i]]
  {
  }

  lemma SliceMiddle<T>(a: seq<T>, b: seq<T>, c: seq<T>)
    ensures (a + b + c)[|a|..|a| + |b|] == b
  {
  }

  /** The dispatch reports a takeover attempt exactly for the supported
      providers; the line for any other provider names that provider. */
  lemma TakeoverReportsSupport(domain: string, provider: string)
    ensures var line := Takeover(domain, provider);
      (|line| >= 13 && line[..13] == "Please check ") <==> Supported(provider)
    ensures !Supported(provider) ==> Takeover(domain, provider)[89..89 + |provider|] == provider
  {
    if Supported(provider) {
      TakeoverAttemptedShape(domain);
    } else {
      NotSupportedShape(provider);
    }
  }

  lemma NotSupportedInjective(p1: string, p2: string)
    requires NotSupported(p1) == NotSupported(p2)
    ensures p1 == p2
  {
    NotSupportedShape(p1);
    NotSupportedShape(p2);
  }

  /** For one domain, the returned line tells which outcome occurred; only
      the two supported providers share a line. */
  lemma MessageDeterminesOutcome(o1: Outcome, o2: Outcome)
    requires o1.domain == o2.domain
    requires Message(o1) == Message(o2)
    ensures o1 == o2 || (o1.Dangling? && o2.Dangling? && Supported(o1.provider) && Supported(o2.provider))
  {
    MessageShape(o1);
    MessageShape(o2);
    if o1.Dangling? && o2.Dangling? && !Supported(o1.provider) && !Supported(o2.provider) {
      NotSupportedInjective(o1.provider, o2.provider);
    }
  }

  /** The length and the first and last characters of each kind of line. */
  lemma CantReachShape(d: string)
    ensures Message(CantReach(d))[0] == 'C' && |Message(CantReach(d))| == 23 + |d|
  {
    var l := "Can't reach the domain " + d;
    assert l[0] == 'C';
  }

  lemma NotFoundShape(d: string)
    ensures Message(NotFound(d))[|Message(NotFound(d))| - 1] == 's'
    ensures |Message(NotFound(d))| == |d| + 69
  {
    var tail := " Not found as dangling for any of the common content hosting websites";
    var l := d + tail;
    assert l[|l| - 1] == tail[68] == 's';
  }

  lemma DanglingShape(d: string, p: string)
    ensures var l := Message(Dangling(d, p));
      |l| > 0 && l[|l| - 1] == '.' && l[0] == (if Supported(p) then 'P' else 'T')
  {
    if Supported(p) {
      TakeoverAttemptedShape(d);
      assert Message(Dangling(d, p)) == TakeoverAttempted(d);
    } else {
      NotSupportedShape(p);
      assert Message(Dangling(d, p)) == NotSupported(p);
    }
  }

  lemma MessageShape(o: Outcome)
    ensures |Message(o)| > 0
    ensures o.CantReach? ==> Message(o)[0] == 'C' && |Message(o)| == 23 + |o.domain|
    ensures o.NotFound? ==> Message(o)[|Message(o)| - 1] == 's' && |Message(o)| == |o.domain| + 69
    ensures o.Dangling? ==> Message(o)[|Message(o)| - 1] == '.'
    ensures o.Dangling? && Supported(o.provider) ==> Message(o)[0] == 'P'
    ensures o.Dangling? && !Supported(o.provider) ==> Message(o)[0] == 'T'
  {
    match o
    case CantReach(d) => CantReachShape(d);
    case NotFound(d) => NotFoundShape(d);
    case Dangling(d, p) => DanglingShape(d, p);
  }

  // ---------------------------------------------------------------------
  // The scan of the fingerprints file for one domain

  /** What one record contributes to the scan: None means "read the next
      record", Some(o) means `check` returns with outcome o. */
  function Visit(r: Record, domain: string, cname: string, w: World): (v: Option<Outcome>)
    ensures v.Some? ==> MatchString(w, r.cnamePattern, cname)
    ensures v == Some(CantReach(domain))
      <==> MatchString(w, r.cnamePattern, cname) && w.get(ProbeUrl(r, domain)).Unreachable?
    ensures v == Some(Dangling(domain, r.name))
      <==> && MatchString(w, r.cnamePattern, cname)
           && w.get(ProbeUrl(r, domain)).Body?
           && MatchString(w, r.errorPattern, w.get(ProbeUrl(r, domain)).text)
    ensures v == None || v == Some(CantReach(domain)) || v == Some(Dangling(domain, r.name))
  {
    if !MatchString(w, r.cnamePattern, cname) then None
    else match w.get(ProbeUrl(r, domain))
      case Unreachable => Some(CantReach(domain))
      case Body(text) =>
        if MatchString(w, r.errorPattern, text) then Some(Dangling(domain, r.name)) else None
  }

  /** Where a scan ends: its outcome and the reader's cursor afterwards. */
  datatype Stop = Stop(outcome: Outcome, cursor: nat)

  /** The loop of `check` from cursor pos: records are read one by one
      until one of them ends the scan or EOF is reached. The cursor only
      moves forward, and by at least one record unless it is at EOF. */
  function Scan(records: seq<Record>, pos: nat, domain: string, cname: string, w: World): (s: Stop)
    requires pos <= |records|
    ensures pos <= s.cursor <= |records|
    ensures pos < |records| ==> pos < s.cursor
    ensures s.outcome.domain == domain
    decreases |records| - pos
  {
    if pos == |records| then Stop(NotFound(domain), pos)
    else match Visit(records[pos], domain, cname, w)
      case Some(o) => Stop(o, pos + 1)
      case None => Scan(records, pos + 1, domain, cname, w)
  }

  /** The scan stops at the first record at or after pos that ends it;
      that record is the last one consumed. With no such record the cursor
      ends at EOF and nothing was found. */
  lemma {:induction false} ScanIsFirstStop(records: seq<Record>, pos: nat, domain: string, cname: string, w: World)
    requires pos <= |records|
    ensures var s := Scan(records, pos, domain, cname, w);
      && (s.outcome.NotFound? ==> s.cursor == |records|)
      && (!s.outcome.NotFound? ==> Visit(records[s.cursor - 1], domain, cname, w) == Some(s.outcome))
      && (forall j :: pos <= j < s.cursor && (s.outcome.NotFound? || j < s.cursor - 1) ==>
            Visit(records[j], domain, cname, w) == None)
    decreases |records| - pos
  {
    if pos < |records| && Visit(records[pos], domain, cname, w).None? {
      ScanIsFirstStop(records, pos + 1, domain, cname, w);
    }
  }

  /** A record whose CNAME pattern does not match (or does not compile) is
      passed over without being probed, and the cursor moves past it. */
  lemma SkipsUnmatchedRecord(records: seq<Record>, pos: nat, domain: string, cname: string, w: World,
                             get: string -> Response)
    requires pos < |records|
    requires !MatchString(w, records[pos].cnamePattern, cname)
    ensures Visit(records[pos], domain, cname, w.(get := get)) == None
    ensures Scan(records, pos, domain, cname, w) == Scan(records, pos + 1, domain, cname, w)
  {
  }

  /** A failed probe of a CNAME-matching record ends the scan at once. */
  lemma UnreachableEndsScan(records: seq<Record>, pos: nat, domain: string, cname: string, w: World)
    requires pos < |records|
    requires MatchString(w, records[pos].cnamePattern, cname)
    requires w.get(ProbeUrl(records[pos], domain)) == Unreachable
    ensures Scan(records, pos, domain, cname, w) == Stop(CantReach(domain), pos + 1)
    ensures Message(CantReach(domain)) == "Can't reach the domain " + domain
  {
  }

  /** A body without the error signature does not end the scan. */
  lemma UnmatchedBodyContinues(records: seq<Record>, pos: nat, domain: string, cname: string, w: World)
    requires pos < |records|
    requires MatchString(w, records[pos].cnamePattern, cname)
    requires w.get(ProbeUrl(records[pos], domain)).Body?
    requires !MatchString(w, records[pos].errorPattern, w.get(ProbeUrl(records[pos], domain)).text)
    ensures Scan(records, pos, domain, cname, w) == Scan(records, pos + 1, domain, cname, w)
  {
  }

  /** First match wins: the earliest record at or after pos that stops the
      scan decides the outcome and is the last one consumed. */
  lemma {:induction false} FirstStopWins(records: seq<Record>, pos: nat, k: nat, domain: string, cname: string, w: World)
    requires pos <= k < |records|
    requires forall j :: pos <= j < k ==> Visit(records[j], domain, cname, w) == None
    requires Visit(records[k], domain, cname, w).Some?
    ensures Scan(records, pos, domain, cname, w) == Stop(Visit(records[k], domain, cname, w).value, k + 1)
    decreases k - pos
  {
    if pos < k {
      FirstStopWins(records, pos + 1, k, domain, cname, w);
    }
  }

  /** A confirmed signature routes to the dispatch for that record's provider. */
  lemma ConfirmedRoutesToTakeover(records: seq<Record>, pos: nat, k: nat, domain: string, cname: string, w: World)
    requires pos <= k < |records|
    requires forall j :: pos <= j < k ==> Visit(records[j], domain, cname, w) == None
    requires MatchString(w, records[k].cnamePattern, cname)
    requires w.get(ProbeUrl(records[k], domain)).Body?
    requires MatchString(w, records[k].errorPattern, w.get(ProbeUrl(records[k], domain)).text)
    ensures Scan(records, pos, domain, cname, w) == Stop(Dangling(domain, records[k].name), k + 1)
    ensures Message(Scan(records, pos, domain, cname, w).outcome) == Takeover(domain, records[k].name)
  {
    FirstStopWins(records, pos, k, domain, cname, w);
  }

  /** With no stopping record left the scan reaches EOF and reports not found. */
  lemma {:induction false} ExhaustedScanNotFound(records: seq<Record>, pos: nat, domain: string, cname: string, w: World)
    requires pos <= |records|
    requires forall j :: pos <= j < |records| ==> Visit(records[j], domain, cname, w) == None
    ensures Scan(records, pos, domain, cname, w) == Stop(NotFound(domain), |records|)
    ensures Message(Scan(records, pos, domain, cname, w).outcome)
         == domain + " Not found as dangling for any of the common content hosting websites"
    decreases |records| - pos
  {
    if pos < |records| {
      ExhaustedScanNotFound(records, pos + 1, domain, cname, w);
    }
  }

  lemma VisitProbesOnlyMatched(r: Record, domain: string, cname: string, w: World, get: string -> Response)
    requires MatchString(w, r.cnamePattern, cname) ==> w.get(ProbeUrl(r, domain)) == get(ProbeUrl(r, domain))
    ensures Visit(r, domain, cname, w) == Visit(r, domain, cname, w.(get := get))
  {
  }

  /** The scan consults the network only for records whose CNAME pattern
      matches: two worlds that differ elsewhere in `get` give the same scan. */
  lemma {:induction false} ScanProbesOnlyMatchedRecords(records: seq<Record>, pos: nat, domain: string,
                                                        cname: string, w: World, get: string -> Response)
    requires pos <= |records|
    requires forall j :: pos <= j < |records| && MatchString(w, records[j].cnamePattern, cname) ==>
      w.get(ProbeUrl(records[j], domain)) == get(ProbeUrl(records[j], domain))
    ensures Scan(records, pos, domain, cname, w) == Scan(records, pos, domain, cname, w.(get := get))
    decreases |records| - pos
  {
    if pos < |records| {
      VisitProbesOnlyMatched(records[pos], domain, cname, w, get);
      ScanProbesOnlyMatchedRecords(records, pos + 1, domain, cname, w, get);
    }
  }

  /** An early return reads no record after the one that decided it:
      whatever follows the cursor does not change the scan. */
  lemma {:induction false} ScanReadsNothingPastCursor(records: seq<Record>, pos: nat, domain: string,
                                                      cname: string, w: World, rest: seq<Record>)
    requires pos <= |records|
    requires !Scan(records, pos, domain, cname, w).outcome.NotFound?
    ensures var c := Scan(records, pos, domain, cname, w).cursor;
      Scan(records[..c] + rest, pos, domain, cname, w) == Scan(records, pos, domain, cname, w)
    decreases |records| - pos
  {
    var c := Scan(records, pos, domain, cname, w).cursor;
    var other := records[..c] + rest;
    assert other[pos] == records[pos];
    if Visit(records[pos], domain, cname, w).None? {
      ScanReadsNothingPastCursor(records, pos + 1, domain, cname, w, rest);
    }
  }

  // ---------------------------------------------------------------------
  // The csv reader shared by all domains, and `check` over it

  /** csv.Reader over the fingerprints file, already parsed into records:
      a cursor into a fixed sequence of rows. */
  class RecordReader {
    const records: seq<Record>
    var pos: nat

    ghost predicate Valid()
      reads this
    {
      pos <= |records|
    }

    constructor (records: seq<Record>)
      ensures Valid() && this.records == records && pos == 0
    {
      this.records := records;
      pos := 0;
    }

    /** records.Read(): the next row, or None at EOF (which stays EOF). */
    method Read() returns (record: Option<Record>)
      requires Valid()
      modifies this
      ensures Valid()
      ensures old(pos) < |records| ==> record == Some(records[old(pos)]) && pos == old(pos) + 1
      ensures old(pos) == |records| ==> record == None && pos == old(pos)
    {
      if pos < |records| {
        record := Some(records[pos]);
        pos := pos + 1;
      } else {
        record := None;
      }
    }

    /** Back to the first row, as re-opening the fingerprints file would do.
        tkosubs.go has no such step; the corrected loop in SharedCursor uses it. */
    method Rewind()
      modifies this
      ensures Valid() && pos == 0
    {
      pos := 0;
    }
  }

  /** The scan ends at row k with outcome o, and line is the line of o. */
  lemma ScanEndsAt(records: seq<Record>, pos: nat, k: nat, domain: string, cname: string, w: World,
                   o: Outcome, line: string)
    requires pos <= k < |records|
    requires forall j :: pos <= j < k ==> Visit(records[j], domain, cname, w) == None
    requires Visit(records[k], domain, cname, w) == Some(o)
    requires line == Message(o)
    ensures Scan(records, pos, domain, cname, w) == Stop(o, k + 1)
    ensures line == Message(Scan(records, pos, domain, cname, w).outcome)
  {
    FirstStopWins(records, pos, k, domain, cname, w);
  }

  /** check(domain, records): scan the reader from where it stands. */
  method Check(domain: string, reader: RecordReader, w: World) returns (line: string)
    requires reader.Valid()
    modifies reader
    ensures reader.Valid()
    ensures var s := Scan(reader.records, old(reader.pos), domain, w.lookupCname(domain), w);
      line == Message(s.outcome) && reader.pos == s.cursor
  {
    var cname := w.lookupCname(domain);
    ghost var start := reader.pos;
    while true
      invariant reader.Valid() && start <= reader.pos
      invariant forall j :: start <= j < reader.pos ==> Visit(reader.records[j], domain, cname, w) == None
      decreases |reader.records| - reader.pos
    {
      ghost var k := reader.pos;
      var record := reader.Read();
      if record.None? {
        break;
      }
      var r := record.value;
      assert r == reader.records[k];
      var usesProvider := MatchString(w, r.cnamePattern, cname);
      if usesProvider {
        var protocol := Scheme(r.httpOnly);
        var response := w.get(protocol + domain);
        if response.Unreachable? {
          line := Message(CantReach(domain));
          ScanEndsAt(reader.records, start, k, domain, cname, w, CantReach(domain), line);
          return;
        }
        var canTakeover := MatchString(w, r.errorPattern, response.text);
        if canTakeover {
          line := Takeover(domain, r.name);
          ScanEndsAt(reader.records, start, k, domain, cname, w, Dangling(domain, r.name), line);
          return;
        }
      }
    }
    ExhaustedScanNotFound(reader.records, start, domain, cname, w);
    line := Message(NotFound(domain));
  }

  // ---------------------------------------------------------------------
  // The loop in main: every domain through the same reader

  /** The outcomes of a run of domains and where the cursor ends. */
  datatype Trace = Trace(outcomes: seq<Outcome>, cursor: nat)

  /** Domains are scanned in order, each from where the previous one left
      the shared cursor. */
  function Run(records: seq<Record>, pos: nat, domains: seq<string>, w: World): (t: Trace)
    requires pos <= |records|
    ensures |t.outcomes| == |domains|
    ensures forall i :: 0 <= i < |domains| ==> t.outcomes[i].domain == domains[i]
    ensures pos <= t.cursor <= |records|
    decreases |domains|
  {
    if domains == [] then Trace([], pos)
    else
      var s := Scan(records, pos, domains[0], w.lookupCname(domains[0]), w);
      var rest := Run(records, s.cursor, domains[1..], w);
      Trace([s.outcome] + rest.outcomes, rest.cursor)
  }

  /** One step of a run: the first domain is scanned from pos. */
  lemma RunCons(records: seq<Record>, pos: nat, ds: seq<string>, w: World)
    requires pos <= |records|
    requires ds != []
    ensures var s := Scan(records, pos, ds[0], w.lookupCname(ds[0]), w);
      var rest := Run(records, s.cursor, ds[1..], w);
      Run(records, pos, ds, w) == Trace([s.outcome] + rest.outcomes, rest.cursor)
  {
  }

  lemma ConcatAssoc<T>(a: seq<T>, b: seq<T>, c: seq<T>)
    ensures a + (b + c) == (a + b) + c
  {
  }

  lemma RunOne(records: seq<Record>, pos: nat, d: string, w: World)
    requires pos <= |records|
    ensures var s := Scan(records, pos, d, w.lookupCname(d), w);
      Run(records, pos, [d], w) == Trace([s.outcome], s.cursor)
  {
    var s := Scan(records, pos, d, w.lookupCname(d), w);
    assert [d][1..] == [];
    assert [s.outcome] + [] == [s.outcome];
  }

  /** Running d1 then d2 is running d2 from where d1 left the cursor. */
  lemma {:induction false} RunSplit(records: seq<Record>, pos: nat, d1: seq<string>, d2: seq<string>, w: World)
    requires pos <= |records|
    ensures var t1 := Run(records, pos, d1, w);
      var t2 := Run(records, t1.cursor, d2, w);
      Run(records, pos, d1 + d2, w) == Trace(t1.outcomes + t2.outcomes, t2.cursor)
    decreases |d1|
  {
    if d1 == [] {
      assert d1 + d2 == d2;
    } else {
      var d := d1[0];
      var s := Scan(records, pos, d, w.lookupCname(d), w);
      assert (d1 + d2)[0] == d && (d1 + d2)[1..] == d1[1..] + d2;
      RunCons(records, pos, d1, w);
      RunCons(records, pos, d1 + d2, w);
      RunSplit(records, s.cursor, d1[1..], d2, w);
      var t1' := Run(records, s.cursor, d1[1..], w);
      var t2 := Run(records, t1'.cursor, d2, w);
      ConcatAssoc([s.outcome], t1'.outcomes, t2.outcomes);
    }
  }

  /** Once the cursor is at EOF, every domain is reported not found and
      no record is read. */
  lemma {:induction false} RunAtEof(records: seq<Record>, domains: seq<string>, w: World)
    ensures var t := Run(records, |records|, domains, w);
      t.cursor == |records| && forall i :: 0 <= i < |domains| ==> t.outcomes[i] == NotFound(domains[i])
    decreases |domains|
  {
    if domains != [] {
      RunAtEof(records, domains[1..], w);
    }
  }

  /** The k-th outcome of a run (k > 0) is the (k-1)-th outcome of the run
      of the remaining domains from where the first scan left the cursor. */
  lemma RunTail(records: seq<Record>, pos: nat, domains: seq<string>, w: World, k: nat)
    requires pos <= |records|
    requires 0 < k < |domains|
    ensures var s := Scan(records, pos, domains[0], w.lookupCname(domains[0]), w);
      var rest := Run(records, s.cursor, domains[1..], w);
      && Run(records, pos, domains, w).outcomes[k] == rest.outcomes[k - 1]
      && Run(records, pos, domains, w).cursor == rest.cursor
  {
    RunCons(records, pos, domains, w);
  }

  /** A not-found outcome leaves the cursor at EOF, so every later domain
      of the run is reported not found as well. */
  lemma NotFoundIsSticky(records: seq<Record>, pos: nat, domains: seq<string>, w: World, i: nat, j: nat)
    requires pos <= |records|
    requires i < j < |domains|
    requires Run(records, pos, domains, w).outcomes[i].NotFound?
    ensures Run(records, pos, domains, w).outcomes[j] == NotFound(domains[j])
    ensures Run(records, pos, domains, w).cursor == |records|
  {
    StickyKind(records, pos, domains, w, i, j);
    var o := Run(records, pos, domains, w).outcomes[j];
    assert o.domain == domains[j];
  }

  /** The induction behind NotFoundIsSticky, about the kind of outcome only. */
  lemma {:induction false} StickyKind(records: seq<Record>, pos: nat, domains: seq<string>, w: World, i: nat, j: nat)
    requires pos <= |records|
    requires i < j < |domains|
    requires Run(records, pos, domains, w).outcomes[i].NotFound?
    ensures Run(records, pos, domains, w).outcomes[j].NotFound?
    ensures Run(records, pos, domains, w).cursor == |records|
    decreases |domains|
  {
    var cname := w.lookupCname(domains[0]);
    var s := Scan(records, pos, domains[0], cname, w);
    var tail := domains[1..];
    var rest := Run(records, s.cursor, tail, w);
    RunTail(records, pos, domains, w, j);
    if i == 0 {
      RunCons(records, pos, domains, w);
      assert s.outcome.NotFound?;
      ScanIsFirstStop(records, pos, domains[0], cname, w);
      assert s.cursor == |records|;
      RunAtEof(records, tail, w);
      assert rest.outcomes[j - 1].NotFound?;
    } else {
      RunTail(records, pos, domains, w, i);
      StickyKind(records, s.cursor, tail, w, i - 1, j - 1);
    }
  }

  /** The loop of main over the domains file (the timeout wrapper aside):
      one line per domain, in input order, through one shared reader. */
  method ScanDomains(domains: seq<string>, reader: RecordReader, w: World) returns (lines: seq<string>)
    requires reader.Valid()
    modifies reader
    ensures reader.Valid()
    ensures var t := Run(reader.records, old(reader.pos), domains, w);
      LinesOf(lines, t.outcomes) && reader.pos == t.cursor
  {
    ghost var start := reader.pos;
    lines := [];
    for i := 0 to |domains|
      invariant reader.Valid() && start <= |reader.records|
      invariant var t := Run(reader.records, start, domains[..i], w);
        LinesOf(lines, t.outcomes) && reader.pos == t.cursor
    {
      ghost var before := Run(reader.records, start, domains[..i], w);
      var line := Check(domains[i], reader, w);
      ghost var s := Scan(reader.records, before.cursor, domains[i], w.lookupCname(domains[i]), w);
      LinesSnoc(lines, before.outcomes, line, s.outcome);
      lines := lines + [line];
      RunSplit(reader.records, start, domains[..i], [domains[i]], w);
      RunOne(reader.records, before.cursor, domains[i], w);
      TakeSnoc(domains, i);
    }
    assert domains[..|domains|] == domains;
  }
}
