/** The whole conversion: load the report into the two tables, sort them,
    render both sheets and link them. */
module Convert {
  import opened Wrappers
  import opened Seqs
  import opened Strings
  import opened Sorting
  import opened Report
  import opened Load
  import opened LoadFacts
  import opened Order
  import opened Render
  import opened RenderFacts
  import opened Links

  /** What the conversion writes: the two sheets, the width it computed for
      the title column, and the hyperlinks on that column. */
  datatype Workbook = Workbook(overview: Sheet, details: Sheet, widthB: nat, links: seq<Link>)

  /** The issues in row order: by instance count, most frequent first. */
  function Issues(t: Tables): seq<Issue>
    requires forall p :: p in t.pluginOrder ==> p in t.plugins
  {
    SortIssues(Values(t))
  }

  /** The overview's host columns: the host addresses in ascending order. */
  function Columns(t: Tables): seq<string>
    requires forall ip :: ip in t.hostOrder ==> ip in t.hosts
  {
    ExtractIp(SortHosts(HostValues(t)))
  }

  /** What a conversion of the loaded tables `t` yields. */
  ghost predicate Produced(t: Tables, wb: Workbook)
    requires Wf(t)
  {
    && wb.overview == OverviewSheet(Issues(t), Columns(t))
    && wb.details == DetailsSheet(Issues(t))
    && wb.widthB == MaxWidth(Selected(Issues(t)))
    && |wb.links| == |wb.overview| - 1
    && (forall i :: 0 <= i < |wb.links| ==> wb.links[i].row == i + 2)
    && (forall i :: 0 <= i < |wb.links| ==> wb.links[i].target == DetailsPrefix + Decimal(i + 2))
    && (forall i :: 0 <= i < |wb.links| ==> DetailsRowOf(wb.links[i].target) == Some(i + 2))
  }

  /** The host records in key order carry the keys as their addresses. */
  lemma HostValueIps(t: Tables)
    requires forall ip :: ip in t.hostOrder ==> ip in t.hosts && t.hosts[ip].ip == ip
    ensures forall i :: 0 <= i < |HostValues(t)| ==> HostValues(t)[i].ip == t.hostOrder[i]
  {
  }

  /** A sorted list of host records has the addresses of the unsorted one. */
  lemma SortedIps(vs: seq<HostRecord>, ip: string)
    ensures ip in ExtractIp(SortHosts(vs)) <==> exists k :: 0 <= k < |vs| && vs[k].ip == ip
  {
    SortHostsSpec(vs);
    var sorted := SortHosts(vs);
    var cols := ExtractIp(sorted);
    if ip in cols {
      var i :| 0 <= i < |cols| && cols[i] == ip;
      assert sorted[i] in multiset(vs);
      var k :| 0 <= k < |vs| && vs[k] == sorted[i];
    }
    if exists k :: 0 <= k < |vs| && vs[k].ip == ip {
      var k :| 0 <= k < |vs| && vs[k].ip == ip;
      assert vs[k] in multiset(sorted);
      var i :| 0 <= i < |sorted| && sorted[i] == vs[k];
      assert cols[i] == ip;
    }
  }

  /** The host columns list every loaded host exactly once, in ascending
      address order. */
  lemma ColumnsSpec(t: Tables)
    requires Wf(t)
    ensures Distinct(Columns(t))
    ensures forall ip :: ip in Columns(t) <==> ip in t.hosts
    ensures forall i, j :: 0 <= i < j < |Columns(t)| ==> LexLe(Columns(t)[i], Columns(t)[j])
  {
    var vs := HostValues(t);
    HostValueIps(t);
    assert Distinct(t.hostOrder);
    SortHostsSpec(vs);
    forall ip ensures ip in Columns(t) <==> ip in t.hosts {
      SortedIps(vs, ip);
    }
  }

  /** Every issue in row order is one of the loaded issues, each loaded
      issue appears, and the counts do not increase down the rows. */
  lemma IssuesSpec(t: Tables)
    requires Wf(t)
    ensures forall x :: x in Issues(t) <==> exists p :: p in t.plugins && t.plugins[p] == x
    ensures forall i, j :: 0 <= i < j < |Issues(t)| ==> Issues(t)[i].instances >= Issues(t)[j].instances
  {
    var vs := Values(t);
    SortIssuesSpec(vs);
    forall x ensures x in Issues(t) <==> exists p :: p in t.plugins && t.plugins[p] == x {
      if x in Issues(t) {
        assert x in multiset(vs);
        var k :| 0 <= k < |vs| && vs[k] == x;
        assert t.plugins[t.pluginOrder[k]] == x;
      }
      if exists p :: p in t.plugins && t.plugins[p] == x {
        var p :| p in t.plugins && t.plugins[p] == x;
        var k :| 0 <= k < |t.pluginOrder| && t.pluginOrder[k] == p;
        assert vs[k] in multiset(Issues(t));
      }
    }
  }

  /** Every address an issue occurred on is a host column, so the lookup of
      an occurrence's column always succeeds. */
  lemma OccurrencesHaveColumns(t: Tables)
    requires Wf(t)
    ensures forall i, k :: 0 <= i < |Issues(t)| && 0 <= k < |Issues(t)[i].hosts| ==>
              Issues(t)[i].hosts[k].ip in Columns(t)
  {
    IssuesSpec(t);
    ColumnsSpec(t);
    forall i, k | 0 <= i < |Issues(t)| && 0 <= k < |Issues(t)[i].hosts|
      ensures Issues(t)[i].hosts[k].ip in Columns(t)
    {
      assert Issues(t)[i] in Issues(t);
      var p :| p in t.plugins && t.plugins[p] == Issues(t)[i];
    }
  }

  /** Lines 98-157 and 226-231: sort both tables, write the address row,
      render the tiers, then link every overview row to its details row. */
  method ConvertTables(t: Tables) returns (wb: Workbook)
    requires Wf(t)
    ensures Produced(t, wb)
  {
    var plugins := SortIssues(Values(t));
    var hosts := SortHosts(HostValues(t));
    var cols := ExtractIp(hosts);
    assert plugins == Issues(t) && cols == Columns(t);
    OccurrencesHaveColumns(t);
    forall i, k | 0 <= i < |plugins| && 1 <= plugins[i].severityId <= 4 && plugins[i].instances > 0
                  && 0 <= k < |plugins[i].hosts|
      ensures plugins[i].hosts[k].ip in cols
    {
      assert plugins[i].hosts[k].ip in Columns(t);
    }
    var overview, details, maxWidthB := RenderSheets(plugins, cols);
    assert overview[0] == Header(cols);
    var links := Hyperlinks(overview);
    wb := Workbook(overview, details, maxWidthB, links);
  }

  /** The script end to end: load the report (lines 66-95), then convert the
      tables. A report that stops the load yields its error. */
  method ConvertReport(report: seq<ReportHost>) returns (r: Result<Workbook, LoadError>)
    ensures r.Ok? <==> LoadSpec(report).Ok?
    ensures r.Err? ==> LoadSpec(report) == Err(r.error)
    ensures r.Ok? ==> Wf(LoadSpec(report).value) && Produced(LoadSpec(report).value, r.value)
  {
    var loaded := LoadReport(report);
    if loaded.Err? {
      return Err(loaded.error);
    }
    RunWf(Findings(report));
    var wb := ConvertTables(loaded.value);
    r := Ok(wb);
  }
}
