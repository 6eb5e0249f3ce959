/** What a finished workbook says about the report it was made from. */
module WorkbookFacts {
  import opened Wrappers
  import Severity
  import opened Seqs
  import opened Strings
  import opened Sorting
  import opened Report
  import opened Load
  import opened LoadFacts
  import opened Order
  import opened Render
  import opened RenderFacts
  import opened Links
  import opened Convert

  /** A host becomes an overview column exactly when it has at least one
      report item: a host the scan listed without items gets no column. */
  lemma ColumnsAreReportedHosts(report: seq<ReportHost>, t: Tables)
    requires LoadSpec(report) == Ok(t)
    ensures Wf(t)
    ensures forall ip :: ip in Columns(t) <==>
              exists h :: 0 <= h < |report| && report[h].ip == ip && |report[h].items| > 0
  {
    var fs := Findings(report);
    RunWf(fs);
    RunKeyOrder(fs);
    DedupSpec(Ips(fs));
    ColumnsSpec(t);
    forall ip ensures ip in Columns(t) <==>
                      exists h :: 0 <= h < |report| && report[h].ip == ip && |report[h].items| > 0
    {
      FindingIps(report, ip);
      assert ip in Ips(fs) <==> exists i :: 0 <= i < |fs| && fs[i].ip == ip;
    }
  }

  /** Every report item is counted once: the instance counts of the issues
      add up to the number of items, and so do the host records' issue lists. */
  lemma Totals(report: seq<ReportHost>, t: Tables)
    requires LoadSpec(report) == Ok(t)
    ensures Wf(t)
    ensures Sum(Issues(t), Instances) == ItemCount(report)
    ensures Sum(SortHosts(HostValues(t)), IssueCount) == ItemCount(report)
  {
    RunTotals(Findings(report));
    FindingsCount(report);
    SortBySum(Values(t), Instances, AtLeast, Instances);
    SortBySum(HostValues(t), HostIp, LexLe, IssueCount);
  }

  /** Overview row `r` and host column `j`: the cell lists the
      `port/protocol` of each occurrence of that row's issue on that host,
      joined by the cell separator, and is empty exactly when the issue was
      not seen on that host. */
  lemma WorkbookCells(t: Tables, wb: Workbook, r: nat, j: nat)
    requires Wf(t) && Produced(t, wb)
    requires 1 <= r < |wb.overview| && j < |Columns(t)|
    ensures r - 1 < |Selected(Issues(t))|
    ensures var issue := Selected(Issues(t))[r - 1];
            && wb.overview[r][j + 2] == Join(PortProtocols(OnHost(issue.hosts, Columns(t)[j])), CellSeparator)
            && (wb.overview[r][j + 2] == "" <==> forall k :: 0 <= k < |issue.hosts| ==> issue.hosts[k].ip != Columns(t)[j])
  {
    ColumnsSpec(t);
    OverviewCell(Issues(t), Columns(t), r, j);
  }

  /** The link on overview row `i + 2` leads to the details row that
      describes the same issue: both rows carry its title and its severity
      name. */
  lemma WorkbookLinks(t: Tables, wb: Workbook, i: nat)
    requires Wf(t) && Produced(t, wb)
    requires i < |wb.links|
    ensures DetailsRowOf(wb.links[i].target).Some?
    ensures var d := DetailsRowOf(wb.links[i].target).value;
            var o := wb.links[i].row;
            && 1 <= o - 1 < |wb.overview| && 1 <= d - 1 < |wb.details| && i < |Selected(Issues(t))|
            && wb.overview[o - 1][1] == wb.details[d - 1][0] == Selected(Issues(t))[i].title
            && wb.overview[o - 1][0] == wb.details[d - 1][4]
            && AllRenderable(Selected(Issues(t)))
            && wb.overview[o - 1] == OverviewRow(Selected(Issues(t))[i], Columns(t))
            && wb.details[d - 1] == DetailsRow(Selected(Issues(t))[i])
  {
    SheetShape(Issues(t), Columns(t));
    OverviewRowAt(Issues(t), Columns(t), i + 1);
  }
}
