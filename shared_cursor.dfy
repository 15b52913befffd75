/**
  The loop in main hands one csv reader to every domain, so a domain is
  scanned only against the rows the earlier domains left unread. Once one
  domain is not found, the reader is at EOF and every later domain is
  reported not found without a single row being checked; after a takeover
  the next domain misses the rows before the one that matched.

  This module exhibits that on a concrete input and gives the evidently
  intended loop: every domain scanned against the whole registry.
 */
module SharedCursor {
  import opened Tkosubs

  /** A registry of one GitHub row, and a world in which every domain is a
      CNAME to x.github.io serving the GitHub error page. Pattern search
      is taken to be equality, which is enough for these literal patterns. */
  const GithubRow: Record := Record("github", "x.github.io", "There isn't a GitHub Pages site here", "true")

  const DanglingEverywhere: World := World(
    d => "x.github.io",
    p => true,
    (p, t) => p == t,
    u => Body("There isn't a GitHub Pages site here"))

  /** The outcomes when each domain is scanned against the whole registry. */
  function FreshOutcomes(records: seq<Record>, domains: seq<string>, w: World): (os: seq<Outcome>)
    ensures |os| == |domains|
    ensures forall i :: 0 <= i < |domains| ==>
      os[i] == Scan(records, 0, domains[i], w.lookupCname(domains[i]), w).outcome
  {
    seq(|domains|, i requires 0 <= i < |domains| => Scan(records, 0, domains[i], w.lookupCname(domains[i]), w).outcome)
  }

  /** As written: two domains that both point at the same dangling GitHub
      page; the first is taken over, the second is reported not found. */
  lemma SharedCursorMissesSecondDomain()
    ensures Run([GithubRow], 0, ["a.example.com", "b.example.com"], DanglingEverywhere).outcomes
         == [Dangling("a.example.com", "github"), NotFound("b.example.com")]
    ensures FreshOutcomes([GithubRow], ["a.example.com", "b.example.com"], DanglingEverywhere)
         == [Dangling("a.example.com", "github"), Dangling("b.example.com", "github")]
  {
    var rs, w := [GithubRow], DanglingEverywhere;
    var ds := ["a.example.com", "b.example.com"];
    assert MatchString(w, GithubRow.cnamePattern, "x.github.io");
    assert MatchString(w, GithubRow.errorPattern, w.get(ProbeUrl(GithubRow, ds[0])).text);
    assert MatchString(w, GithubRow.errorPattern, w.get(ProbeUrl(GithubRow, ds[1])).text);
    var s0 := Scan(rs, 0, ds[0], w.lookupCname(ds[0]), w);
    assert s0 == Stop(Dangling(ds[0], "github"), 1);
    var s1 := Scan(rs, 1, ds[1], w.lookupCname(ds[1]), w);
    assert s1 == Stop(NotFound(ds[1]), 1);
    RunCons(rs, 0, ds, w);
    RunOne(rs, 1, ds[1], w);
    assert ds[1..] == [ds[1]];
    var f := FreshOutcomes(rs, ds, w);
    assert f[0] == Dangling(ds[0], "github");
    assert f[1] == Dangling(ds[1], "github");
  }

  /** Corrected: a domain's outcome depends on that domain alone. Scanning
      two lists of domains one after the other gives the outcomes of each
      list on its own (no cursor is threaded through, unlike RunSplit), and
      every outcome is that of a one-domain run on a fresh reader. */
  lemma FreshOutcomesIndependent(records: seq<Record>, d1: seq<string>, d2: seq<string>, w: World)
    ensures FreshOutcomes(records, d1 + d2, w) == FreshOutcomes(records, d1, w) + FreshOutcomes(records, d2, w)
    ensures forall i :: 0 <= i < |d1| ==>
      FreshOutcomes(records, d1, w)[i] == Run(records, 0, [d1[i]], w).outcomes[0]
  {
    var f, f1, f2 := FreshOutcomes(records, d1 + d2, w), FreshOutcomes(records, d1, w), FreshOutcomes(records, d2, w);
    forall i | 0 <= i < |f|
      ensures f[i] == (f1 + f2)[i]
    {
      if i < |d1| {
        assert (d1 + d2)[i] == d1[i];
      } else {
        assert (d1 + d2)[i] == d2[i - |d1|];
      }
    }
    forall i | 0 <= i < |d1|
      ensures f1[i] == Run(records, 0, [d1[i]], w).outcomes[0]
    {
      RunOne(records, 0, d1[i], w);
    }
  }

  /** Corrected: a domain is reported not found exactly when no row of the
      whole registry ends its scan, whatever came before it in the list. */
  lemma FreshNotFoundIffNoStop(records: seq<Record>, domains: seq<string>, w: World, i: nat)
    requires i < |domains|
    ensures var cname := w.lookupCname(domains[i]);
      FreshOutcomes(records, domains, w)[i].NotFound?
      <==> forall j :: 0 <= j < |records| ==> Visit(records[j], domains[i], cname, w) == None
  {
    var d := domains[i];
    var cname := w.lookupCname(d);
    ScanIsFirstStop(records, 0, d, cname, w);
    if forall j :: 0 <= j < |records| ==> Visit(records[j], d, cname, w) == None {
      ExhaustedScanNotFound(records, 0, d, cname, w);
    }
  }

  /** The corrected loop: the reader is rewound before every domain. */
  method ScanDomainsRewound(domains: seq<string>, reader: RecordReader, w: World) returns (lines: seq<string>)
    requires reader.Valid()
    modifies reader
    ensures reader.Valid()
    ensures LinesOf(lines, FreshOutcomes(reader.records, domains, w))
    ensures |domains| == 0 ==> reader.pos == old(reader.pos)
    ensures |domains| > 0 ==>
      reader.pos == Scan(reader.records, 0, domains[|domains| - 1], w.lookupCname(domains[|domains| - 1]), w).cursor
  {
    lines := [];
    for i := 0 to |domains|
      invariant reader.Valid()
      invariant LinesOf(lines, FreshOutcomes(reader.records, domains[..i], w))
      invariant i == 0 ==> reader.pos == old(reader.pos)
      invariant i > 0 ==>
        reader.pos == Scan(reader.records, 0, domains[i - 1], w.lookupCname(domains[i - 1]), w).cursor
    {
      reader.Rewind();
      var line := Check(domains[i], reader, w);
      ghost var o := Scan(reader.records, 0, domains[i], w.lookupCname(domains[i]), w).outcome;
      LinesSnoc(lines, FreshOutcomes(reader.records, domains[..i], w), line, o);
      lines := lines + [line];
      TakeSnoc(domains, i);
      assert FreshOutcomes(reader.records, domains[..i + 1], w)
          == FreshOutcomes(reader.records, domains[..i], w) + [o];
    }
    assert domains[..|domains|] == domains;
  }
}
