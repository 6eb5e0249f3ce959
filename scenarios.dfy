/** Two small reports worked through end to end. */
module Scenarios {
  import opened Wrappers
  import Severity
  import opened Report
  import opened Load
  import opened LoadFacts
  import opened Order
  import opened Strings
  import opened Sorting
  import opened Render
  import opened RenderFacts
  import opened Convert

  const TlsItem := ReportItem(4, "1001", "443", "tcp", "Weak TLS", ["desc"], ["fix"], ["out"])
  const TlsAltItem := ReportItem(4, "1001", "8443", "tcp", "Weak TLS", [], [], [])
  const FirstOccurrence := Occurrence("a", "10.0.0.1", "443", "tcp")
  const SecondOccurrence := Occurrence("b", "10.0.0.2", "8443", "tcp")
  const FirstIssue := Issue("1001", 1, 4, "Weak TLS", "desc", "fix", "out", [FirstOccurrence])
  const SharedIssue := Issue("1001", 2, 4, "Weak TLS", "desc", "fix", "out", [FirstOccurrence, SecondOccurrence])
  const FirstHost := HostRecord("10.0.0.1", "a", [HostIssue("443", "tcp", "Weak TLS", 4, "desc", "fix", "out")])
  const SecondHost := HostRecord("10.0.0.2", "b", [HostIssue("8443", "tcp", "Weak TLS", 4, "desc", "fix", "out")])
  const FirstFinding := Finding("10.0.0.1", "a", TlsItem)
  const SecondFinding := Finding("10.0.0.2", "b", TlsAltItem)
  const FirstTexts := Carried(Some("desc"), Some("fix"), Some("out"))
  const AfterFirst := Tables(map["1001" := FirstIssue], ["1001"], map["10.0.0.1" := FirstHost], ["10.0.0.1"])
  const TwoHostTables := Tables(map["1001" := SharedIssue], ["1001"],
                                map["10.0.0.1" := FirstHost, "10.0.0.2" := SecondHost], ["10.0.0.1", "10.0.0.2"])

  /** The first report: one Critical item on the first host, none on the second. */
  const OneItem := [ReportHost("10.0.0.1", "a", [TlsItem]), ReportHost("10.0.0.2", "b", [])]
  /** The second report: the same plugin on both hosts. */
  const TwoHosts := [ReportHost("10.0.0.1", "a", [TlsItem]), ReportHost("10.0.0.2", "b", [TlsAltItem])]

  /** The tables after the first item of either report. */
  lemma RunFirstFinding()
    ensures Run([FirstFinding]) == Ok(LoadState(AfterFirst, FirstTexts))
  {
    var f := FirstFinding;
    assert [f][..0] == [];
    var occ := FirstOccurrence;
    var p0: map<string, Issue> := map["1001" := Issue("1001", 0, 4, "Weak TLS", "desc", "fix", "out", [])];
    var p1 := p0["1001" := p0["1001"].(instances := 1)];
    assert p1["1001"].hosts + [occ] == [occ];
    assert RecordIssue(map[], f, "desc", "fix", "out") == p1["1001" := p1["1001"].(hosts := [occ])];
    assert p1["1001" := p1["1001"].(hosts := [occ])] == AfterFirst.plugins;
    var h0: map<string, HostRecord> := map["10.0.0.1" := HostRecord("10.0.0.1", "a", [])];
    assert h0["10.0.0.1"].issues + FirstHost.issues == FirstHost.issues;
    assert RecordHost(map[], f, "desc", "fix", "out") == h0["10.0.0.1" := FirstHost];
    assert h0["10.0.0.1" := FirstHost] == AfterFirst.hosts;
    assert Record(EmptyTables, f, "desc", "fix", "out") == AfterFirst;
  }

  lemma OneItemFindings()
    ensures Findings(OneItem) == [FirstFinding]
  {
    var report := OneItem;
    assert HostFindings(report[1]) == [];
    assert report[..1] == [report[0]] && [report[0]][..0] == [];
    assert Findings(report[..1]) == [FirstFinding];
  }

  lemma TwoHostFindings()
    ensures Findings(TwoHosts) == [FirstFinding, SecondFinding]
  {
    var report := TwoHosts;
    assert report[..1] == [report[0]] && [report[0]][..0] == [];
    assert Findings(report[..1]) == [FirstFinding];
    assert HostFindings(report[1]) == [SecondFinding];
  }

  /** Loading the first report: the item-less second host is never entered. */
  lemma LoadOneItem()
    ensures Run(Findings(OneItem)).Ok?
    ensures LoadSpec(OneItem) == Ok(AfterFirst)
  {
    OneItemFindings();
    RunFirstFinding();
  }

  /** Loading the second report: its item finds the plugin id already present
      and inherits the carried texts. */
  lemma LoadTwoHosts()
    ensures Run(Findings(TwoHosts)).Ok?
    ensures LoadSpec(TwoHosts) == Ok(TwoHostTables)
  {
    TwoHostFindings();
    var f1 := FirstFinding;
    var f2 := SecondFinding;
    assert [f1, f2][..1] == [f1];
    var c := FirstTexts;
    RunFirstFinding();
    var t1 := AfterFirst;
    assert Carry(c, TlsAltItem) == c;
    var occ1 := FirstOccurrence;
    var occ2 := SecondOccurrence;
    var p1 := t1.plugins["1001" := t1.plugins["1001"].(instances := 2)];
    assert [occ1] + [occ2] == [occ1, occ2];
    assert RecordIssue(t1.plugins, f2, "desc", "fix", "out") == p1["1001" := p1["1001"].(hosts := [occ1, occ2])];
    assert p1["1001" := p1["1001"].(hosts := [occ1, occ2])] == TwoHostTables.plugins;
    var h0 := t1.hosts["10.0.0.2" := HostRecord("10.0.0.2", "b", [])];
    assert h0["10.0.0.2"].issues + SecondHost.issues == SecondHost.issues;
    assert RecordHost(t1.hosts, f2, "desc", "fix", "out") == h0["10.0.0.2" := SecondHost];
    assert h0["10.0.0.2" := SecondHost] == TwoHostTables.hosts;
    assert Record(t1, f2, "desc", "fix", "out") == TwoHostTables;
  }

  /** A single issue stays where it is. */
  lemma SortOne(issue: Issue)
    ensures SortIssues([issue]) == [issue]
  {
    assert [issue][1..] == [];
    assert SortBy([], Instances, AtLeast) == [];
    assert Insert(issue, [], Instances, AtLeast) == [issue];
  }

  /** A single host record stays where it is. */
  lemma SortOneHost(host: HostRecord)
    ensures SortHosts([host]) == [host]
  {
    assert [host][1..] == [];
    assert SortBy([], HostIp, LexLe) == [];
    assert Insert(host, [], HostIp, LexLe) == [host];
  }

  lemma OneItemIssues()
    ensures Issues(AfterFirst) == [FirstIssue]
  {
    var t := AfterFirst;
    assert t.pluginOrder == ["1001"] && t.plugins["1001"] == FirstIssue;
    assert Values(t) == [FirstIssue];
    SortOne(FirstIssue);
  }

  lemma OneItemColumns()
    ensures Columns(AfterFirst) == ["10.0.0.1"]
  {
    var t := AfterFirst;
    assert t.hostOrder == ["10.0.0.1"] && t.hosts["10.0.0.1"] == FirstHost;
    assert HostValues(t) == [FirstHost];
    SortOneHost(FirstHost);
  }

  lemma TwoHostIssues()
    ensures Issues(TwoHostTables) == [SharedIssue]
  {
    var t := TwoHostTables;
    assert t.pluginOrder == ["1001"] && t.plugins["1001"] == SharedIssue;
    assert Values(t) == [SharedIssue];
    SortOne(SharedIssue);
  }

  /** "10.0.0.1" sorts before "10.0.0.2": they differ only in the last character. */
  lemma FirstAddressFirst()
    ensures LexLe("10.0.0.1", "10.0.0.2")
  {
    var a := "10.0.0.1";
    var b := "10.0.0.2";
    assert a[1..][1..][1..][1..][1..][1..][1..] == "1" && b[1..][1..][1..][1..][1..][1..][1..] == "2";
  }

  /** The two host records sort by address as they came. */
  lemma SortTwoHosts()
    ensures SortHosts([FirstHost, SecondHost]) == [FirstHost, SecondHost]
  {
    var s := [FirstHost, SecondHost];
    assert s[1..] == [SecondHost];
    var rest := SortBy([SecondHost], HostIp, LexLe);
    SortOneHost(SecondHost);
    assert rest == [SecondHost];
    FirstAddressFirst();
    assert LexLe(HostIp(FirstHost), HostIp(SecondHost));
    assert Insert(FirstHost, rest, HostIp, LexLe) == [FirstHost] + rest;
  }

  lemma TwoHostColumns()
    ensures Columns(TwoHostTables) == ["10.0.0.1", "10.0.0.2"]
  {
    var t := TwoHostTables;
    assert t.hostOrder == ["10.0.0.1", "10.0.0.2"];
    assert t.hosts["10.0.0.1"] == FirstHost && t.hosts["10.0.0.2"] == SecondHost;
    assert HostValues(t) == [FirstHost, SecondHost];
    SortTwoHosts();
  }

  /** A lone Critical issue with an instance is the only row. */
  lemma CriticalSelected(issue: Issue)
    requires issue.severityId == 4 && issue.instances > 0
    ensures Selected([issue]) == [issue]
  {
    RenderedTiersDistinct();
    RenderedLone(issue, Severity.RenderedTiers);
  }

  lemma FirstIssueSheets()
    ensures OverviewSheet([FirstIssue], ["10.0.0.1"]) == [["", "", "10.0.0.1"], ["Critical", "Weak TLS", "443/tcp"]]
    ensures DetailsSheet([FirstIssue]) == [DetailsHeader, ["Weak TLS", "desc", "fix", "out", "Critical"]]
  {
    var issue := FirstIssue;
    var cols := ["10.0.0.1"];
    CriticalSelected(issue);
    assert Severity.Name(4) == "Critical";
    assert issue.hosts[..0] == [];
    assert PortProtocol(FirstOccurrence) == "443/tcp";
    assert IndexOf(cols, "10.0.0.1") == Some(0);
    assert EntriesFor(issue.hosts, cols, 0) == ["443/tcp"];
    assert Cell(issue.hosts, cols, 0) == "443/tcp";
    assert OverviewRow(issue, cols) == ["Critical", "Weak TLS", "443/tcp"];
    assert Header(cols) == ["", "", "10.0.0.1"];
    assert OverviewRows([issue], cols) == [OverviewRow(issue, cols)];
    assert DetailsRows([issue]) == [DetailsRow(issue)];
  }

  lemma SharedIssueCells()
    ensures Cell(SharedIssue.hosts, ["10.0.0.1", "10.0.0.2"], 0) == "443/tcp"
    ensures Cell(SharedIssue.hosts, ["10.0.0.1", "10.0.0.2"], 1) == "8443/tcp"
  {
    var occs := SharedIssue.hosts;
    var cols := ["10.0.0.1", "10.0.0.2"];
    assert occs[..1] == [FirstOccurrence] && [FirstOccurrence][..0] == [];
    assert IndexOf(cols, "10.0.0.1") == Some(0);
    assert IndexOf(cols, "10.0.0.2") == Some(1);
    assert PortProtocol(FirstOccurrence) == "443/tcp" && PortProtocol(SecondOccurrence) == "8443/tcp";
    assert occs[..2] == occs && occs[1] == SecondOccurrence;
    assert EntriesFor([FirstOccurrence], cols, 0) == ["443/tcp"];
    assert EntriesFor([FirstOccurrence], cols, 1) == [];
    assert EntriesFor(occs, cols, 0) == ["443/tcp"];
    assert EntriesFor(occs, cols, 1) == ["8443/tcp"];
  }

  /** The shared issue's overview row fills both host cells. */
  lemma SharedIssueRow()
    ensures OverviewSheet([SharedIssue], ["10.0.0.1", "10.0.0.2"])
            == [["", "", "10.0.0.1", "10.0.0.2"], ["Critical", "Weak TLS", "443/tcp", "8443/tcp"]]
  {
    var issue := SharedIssue;
    var cols := ["10.0.0.1", "10.0.0.2"];
    CriticalSelected(issue);
    assert Severity.Name(4) == "Critical";
    SharedIssueCells();
    assert OverviewRow(issue, cols) == ["Critical", "Weak TLS", "443/tcp", "8443/tcp"];
    assert Header(cols) == ["", "", "10.0.0.1", "10.0.0.2"];
    assert OverviewRows([issue], cols) == [OverviewRow(issue, cols)];
  }

  /** Two hosts; one Critical item on the first, none on the second. The
      second host was never entered in the host table, so the overview has
      one host column, not two. */
  lemma OneCriticalOnFirstHost()
    ensures LoadSpec(OneItem).Ok?
    ensures var t := LoadSpec(OneItem).value;
            && Wf(t)
            && Columns(t) == ["10.0.0.1"]
            && OverviewSheet(Issues(t), Columns(t)) == [["", "", "10.0.0.1"], ["Critical", "Weak TLS", "443/tcp"]]
            && DetailsSheet(Issues(t)) == [DetailsHeader, ["Weak TLS", "desc", "fix", "out", "Critical"]]
  {
    LoadOneItem();
    RunWf(Findings(OneItem));
    OneItemIssues();
    OneItemColumns();
    FirstIssueSheets();
  }

  /** One plugin id on two hosts: a single issue counted twice, whose row
      fills both host cells. The second item has no texts of its own, so the
      second host's entry carries the first item's. */
  lemma OnePluginOnTwoHosts()
    ensures LoadSpec(TwoHosts).Ok?
    ensures var t := LoadSpec(TwoHosts).value;
            && Wf(t)
            && "10.0.0.2" in t.hosts && |t.hosts["10.0.0.2"].issues| == 1
            && t.hosts["10.0.0.2"].issues[0].description == "desc"
            && t.hosts["10.0.0.2"].issues[0].evidence == "out"
            && |Issues(t)| == 1 && Issues(t)[0].instances == 2
            && Columns(t) == ["10.0.0.1", "10.0.0.2"]
            && OverviewSheet(Issues(t), Columns(t))
               == [["", "", "10.0.0.1", "10.0.0.2"], ["Critical", "Weak TLS", "443/tcp", "8443/tcp"]]
  {
    LoadTwoHosts();
    RunWf(Findings(TwoHosts));
    TwoHostIssues();
    TwoHostColumns();
    SharedIssueRow();
  }
}
