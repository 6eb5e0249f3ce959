/** The two sheets as rows of cell texts: the overview matrix (issues by
    hosts, cells listing `port/protocol`) and the details sheet, written in
    lockstep one issue at a time. */
module Render {
  import opened Wrappers
  import opened Seqs
  import opened Strings
  import Severity
  import opened Load

  type Row = seq<string>
  type Sheet = seq<Row>

  const ColOffset := 2
  const CellSeparator := ", \r\n"
  const DetailsHeader: Row := ["Name", "Description", "Solution", "Explanation", "Severity"]

  /** `[item['ip'] for item in lst]`. */
  function ExtractIp(lst: seq<HostRecord>): (ips: seq<string>)
    ensures |ips| == |lst| && forall i :: 0 <= i < |lst| ==> ips[i] == lst[i].ip
  {
    seq(|lst|, i requires 0 <= i < |lst| => lst[i].ip)
  }

  /** `lst.index(x)`: the first position of `x`, or none. */
  function IndexOf(lst: seq<string>, x: string): (r: Option<nat>)
    ensures r.Some? <==> x in lst
    ensures r.Some? ==> r.value < |lst| && lst[r.value] == x && forall k :: 0 <= k < r.value ==> lst[k] != x
  {
    if lst == [] then None
    else if lst[0] == x then Some(0)
    else match IndexOf(lst[1..], x)
      case None => None
      case Some(k) => Some(k + 1)
  }

  /** `insert_cols(idx=1)`: every row shifted one column to the right. */
  function InsertFirstColumn(sheet: Sheet): (r: Sheet)
    ensures |r| == |sheet| && forall i :: 0 <= i < |r| ==> r[i] == [""] + sheet[i]
  {
    seq(|sheet|, i requires 0 <= i < |sheet| => [""] + sheet[i])
  }

  /** An issue gets a row when its tier is one of the four rendered ones and
      it was seen at least once. */
  predicate InTier(issue: Issue, tier: int)
  {
    issue.severityId == tier && issue.instances > 0
  }

  /** The issues of one tier, in list order. */
  function Tier(issues: seq<Issue>, tier: int): seq<Issue>
  {
    if issues == [] then []
    else Tier(issues[..|issues| - 1], tier)
         + (if InTier(issues[|issues| - 1], tier) then [issues[|issues| - 1]] else [])
  }

  /** The issues given rows, tier after tier. */
  function Rendered(issues: seq<Issue>, tiers: seq<int>): seq<Issue>
  {
    if tiers == [] then [] else Rendered(issues, tiers[..|tiers| - 1]) + Tier(issues, tiers[|tiers| - 1])
  }

  function Selected(issues: seq<Issue>): seq<Issue>
  {
    Rendered(issues, Severity.RenderedTiers)
  }

  function PortProtocol(o: Occurrence): (s: string)
    ensures s != ""
  {
    o.port + "/" + o.protocol
  }

  /** The `port/protocol` entries that land in column `j`: those of the
      occurrences whose address is first found at position `j` of `cols`. */
  function EntriesFor(occs: seq<Occurrence>, cols: seq<string>, j: nat): (es: seq<string>)
    ensures forall k :: 0 <= k < |es| ==> es[k] != ""
  {
    if occs == [] then []
    else EntriesFor(occs[..|occs| - 1], cols, j)
         + (if IndexOf(cols, occs[|occs| - 1].ip) == Some(j) then [PortProtocol(occs[|occs| - 1])] else [])
  }

  function Cell(occs: seq<Occurrence>, cols: seq<string>, j: nat): string
  {
    Join(EntriesFor(occs, cols, j), CellSeparator)
  }

  /** The host cells of an overview row, one per column. */
  function Cells(occs: seq<Occurrence>, cols: seq<string>): (r: Row)
    ensures |r| == |cols|
  {
    seq(|cols|, j requires 0 <= j < |cols| => Cell(occs, cols, j))
  }

  function Header(cols: seq<string>): Row
  {
    ["", ""] + cols
  }

  function OverviewRow(issue: Issue, cols: seq<string>): Row
    requires 1 <= issue.severityId <= 4
  {
    [Severity.Name(issue.severityId), issue.title] + Cells(issue.hosts, cols)
  }

  function DetailsRow(issue: Issue): Row
    requires 1 <= issue.severityId <= 4
  {
    [issue.title, issue.description, issue.solution, issue.evidence, Severity.Name(issue.severityId)]
  }

  /** Column B's width: the longest title among the rendered issues, at least 1. */
  function MaxWidth(sel: seq<Issue>): nat
  {
    if sel == [] then 1
    else
      var w := MaxWidth(sel[..|sel| - 1]);
      if |sel[|sel| - 1].title| > w then |sel[|sel| - 1].title| else w
  }

  predicate AllRenderable(sel: seq<Issue>)
  {
    forall i :: 0 <= i < |sel| ==> 1 <= sel[i].severityId <= 4
  }

  function OverviewRows(sel: seq<Issue>, cols: seq<string>): Sheet
    requires AllRenderable(sel)
  {
    seq(|sel|, i requires 0 <= i < |sel| => OverviewRow(sel[i], cols))
  }

  function DetailsRows(sel: seq<Issue>): Sheet
    requires AllRenderable(sel)
  {
    seq(|sel|, i requires 0 <= i < |sel| => DetailsRow(sel[i]))
  }

  lemma {:induction false} TierSpec(issues: seq<Issue>, tier: int)
    ensures forall x :: x in Tier(issues, tier) <==> x in issues && InTier(x, tier)
  {
    if issues != [] {
      TierSpec(issues[..|issues| - 1], tier);
      assert issues == issues[..|issues| - 1] + [issues[|issues| - 1]];
    }
  }

  /** The rendered issues are exactly those of the listed tiers with at least
      one instance. */
  lemma {:induction false} RenderedSpec(issues: seq<Issue>, tiers: seq<int>)
    ensures forall x :: x in Rendered(issues, tiers) <==> x in issues && x.instances > 0 && x.severityId in tiers
  {
    if tiers != [] {
      var pre := tiers[..|tiers| - 1];
      RenderedSpec(issues, pre);
      TierSpec(issues, tiers[|tiers| - 1]);
      assert tiers == pre + [tiers[|tiers| - 1]];
    }
  }

  function OverviewSheet(issues: seq<Issue>, cols: seq<string>): Sheet
  {
    RenderedSpec(issues, Severity.RenderedTiers);
    [Header(cols)] + OverviewRows(Selected(issues), cols)
  }

  function DetailsSheet(issues: seq<Issue>): Sheet
  {
    RenderedSpec(issues, Severity.RenderedTiers);
    [DetailsHeader] + DetailsRows(Selected(issues))
  }

  lemma RowsSnoc(sel: seq<Issue>, x: Issue, cols: seq<string>)
    requires AllRenderable(sel) && 1 <= x.severityId <= 4
    ensures AllRenderable(sel + [x])
    ensures OverviewRows(sel + [x], cols) == OverviewRows(sel, cols) + [OverviewRow(x, cols)]
    ensures DetailsRows(sel + [x]) == DetailsRows(sel) + [DetailsRow(x)]
  {
  }

  /** Appending the address row and inserting two columns before it gives
      two blank cells followed by the addresses. */
  lemma HeaderByInsertion(cols: seq<string>)
    ensures InsertFirstColumn(InsertFirstColumn([cols])) == [Header(cols)]
  {
    assert InsertFirstColumn([cols]) == [[""] + cols];
    assert [""] + ([""] + cols) == Header(cols);
  }

  lemma TierSnoc(issues: seq<Issue>, p: nat, tier: int)
    requires p < |issues|
    ensures Tier(issues[..p + 1], tier) == Tier(issues[..p], tier) + (if InTier(issues[p], tier) then [issues[p]] else [])
  {
    assert issues[..p + 1][..p] == issues[..p];
  }

  lemma RenderedSnoc(issues: seq<Issue>, tiers: seq<int>, t: nat)
    requires t < |tiers|
    ensures Rendered(issues, tiers[..t + 1]) == Rendered(issues, tiers[..t]) + Tier(issues, tiers[t])
  {
    assert tiers[..t + 1][..t] == tiers[..t];
  }

  /** How one more occurrence changes a cell: the column its address is found
      at gets the separator (when already non-empty) and its `port/protocol`;
      every other column is unchanged. */
  lemma CellSnoc(occs: seq<Occurrence>, cols: seq<string>, j: nat, o: nat)
    requires o < |occs|
    ensures Cell(occs[..o + 1], cols, j)
         == if IndexOf(cols, occs[o].ip) == Some(j)
            then (if Cell(occs[..o], cols, j) != "" then Cell(occs[..o], cols, j) + CellSeparator
                  else Cell(occs[..o], cols, j)) + PortProtocol(occs[o])
            else Cell(occs[..o], cols, j)
  {
    assert occs[..o + 1][..o] == occs[..o];
    assert EntriesFor(occs[..o + 1], cols, j)
        == EntriesFor(occs[..o], cols, j) + (if IndexOf(cols, occs[o].ip) == Some(j) then [PortProtocol(occs[o])] else []);
    if IndexOf(cols, occs[o].ip) == Some(j) {
      var es := EntriesFor(occs[..o], cols, j);
      JoinSnoc(es, PortProtocol(occs[o]), CellSeparator);
      assert Cell(occs[..o + 1], cols, j) == Join(es + [PortProtocol(occs[o])], CellSeparator);
      assert Cell(occs[..o], cols, j) == Join(es, CellSeparator);
    } else {
      assert EntriesFor(occs[..o + 1], cols, j) == EntriesFor(occs[..o], cols, j);
    }
  }

  /** One more occurrence changes only the cell of the column its address is
      first found at: the separator when the cell is non-empty, then the entry. */
  lemma CellsSnoc(occs: seq<Occurrence>, cols: seq<string>, o: nat, index: nat)
    requires o < |occs| && IndexOf(cols, occs[o].ip) == Some(index)
    ensures var before := Cells(occs[..o], cols);
            Cells(occs[..o + 1], cols)
            == before[index := (if before[index] != "" then before[index] + CellSeparator else before[index]) + PortProtocol(occs[o])]
  {
    var before := Cells(occs[..o], cols);
    var after := Cells(occs[..o + 1], cols);
    forall j | 0 <= j < |cols|
      ensures after[j] == before[index := (if before[index] != "" then before[index] + CellSeparator else before[index]) + PortProtocol(occs[o])][j]
    {
      CellSnoc(occs, cols, j, o);
    }
  }

  /** Updating a cell past a fixed prefix updates the suffix alone. */
  lemma UpdateAfter(head: Row, cells: Row, i: nat, v: string)
    requires i < |cells|
    ensures (head + cells)[|head| + i := v] == head + cells[i := v]
  {
  }

  /** The two rows of one rendered issue: the details row, and the overview
      row whose host cells collect the issue's `port/protocol` entries. */
  method IssueRows(plugin: Issue, cols: seq<string>) returns (excelRow: Row, excelRow2: Row)
    requires 1 <= plugin.severityId <= 4
    requires forall k :: 0 <= k < |plugin.hosts| ==> plugin.hosts[k].ip in cols
    ensures excelRow == OverviewRow(plugin, cols)
    ensures excelRow2 == DetailsRow(plugin)
  {
    excelRow := seq(|cols| + ColOffset, _ => "");
    excelRow := excelRow[0 := Severity.Name(plugin.severityId)];
    excelRow := excelRow[1 := plugin.title];
    excelRow2 := seq(5, _ => "");
    excelRow2 := excelRow2[4 := Severity.Name(plugin.severityId)];
    excelRow2 := excelRow2[0 := plugin.title];
    excelRow2 := excelRow2[1 := plugin.description];
    excelRow2 := excelRow2[2 := plugin.solution];
    excelRow2 := excelRow2[3 := plugin.evidence];
    ghost var head := [Severity.Name(plugin.severityId), plugin.title];
    for o := 0 to |plugin.hosts|
      invariant excelRow == head + Cells(plugin.hosts[..o], cols)
    {
      var host := plugin.hosts[o];
      var index := IndexOf(cols, host.ip).value;
      ghost var cells := Cells(plugin.hosts[..o], cols);
      ghost var cell := cells[index];
      assert excelRow[index + ColOffset] == cell;
      if excelRow[index + ColOffset] != "" {
        excelRow := excelRow[index + ColOffset := excelRow[index + ColOffset] + CellSeparator];
      }
      excelRow := excelRow[index + ColOffset := excelRow[index + ColOffset] + PortProtocol(host)];
      ghost var cell' := (if cell != "" then cell + CellSeparator else cell) + PortProtocol(host);
      assert excelRow == (head + cells)[index + ColOffset := cell'];
      UpdateAfter(head, cells, index, cell');
      CellsSnoc(plugin.hosts, cols, o, index);
    }
    assert plugin.hosts[..|plugin.hosts|] == plugin.hosts;
  }

  /** One selected issue (lines 133-157): its two rows are appended in the
      same step, and column B widens to its title when that is longer. */
  method AppendIssue(plugin: Issue, cols: seq<string>, ghost sel: seq<Issue>,
                     overview: Sheet, details: Sheet, maxWidthB: nat)
    returns (overview': Sheet, details': Sheet, maxWidthB': nat)
    requires 1 <= plugin.severityId <= 4 && AllRenderable(sel)
    requires forall k :: 0 <= k < |plugin.hosts| ==> plugin.hosts[k].ip in cols
    requires overview == [Header(cols)] + OverviewRows(sel, cols)
    requires details == [DetailsHeader] + DetailsRows(sel)
    requires maxWidthB == MaxWidth(sel)
    ensures AllRenderable(sel + [plugin])
    ensures overview' == [Header(cols)] + OverviewRows(sel + [plugin], cols)
    ensures details' == [DetailsHeader] + DetailsRows(sel + [plugin])
    ensures maxWidthB' == MaxWidth(sel + [plugin])
  {
    var excelRow, excelRow2 := IssueRows(plugin, cols);
    maxWidthB' := maxWidthB;
    if |excelRow[1]| > maxWidthB' {
      maxWidthB' := |excelRow[1]|;
    }
    assert (sel + [plugin])[..|sel|] == sel;
    details' := details + [excelRow2];
    RowsSnoc(sel, plugin, cols);
    overview' := overview + [excelRow];
  }

  /** One pass of the tier loop: every issue of tier `severityId`, in list
      order, adds its overview row and its details row, and may widen column B. */
  method RenderTier(issues: seq<Issue>, cols: seq<string>, severityId: int, ghost sel: seq<Issue>,
                    overview: Sheet, details: Sheet, maxWidthB: nat)
    returns (overview': Sheet, details': Sheet, maxWidthB': nat)
    requires 1 <= severityId <= 4 && AllRenderable(sel)
    requires forall i, k :: (0 <= i < |issues| && InTier(issues[i], severityId) && 0 <= k < |issues[i].hosts|)
                            ==> issues[i].hosts[k].ip in cols
    requires overview == [Header(cols)] + OverviewRows(sel, cols)
    requires details == [DetailsHeader] + DetailsRows(sel)
    requires maxWidthB == MaxWidth(sel)
    ensures AllRenderable(sel + Tier(issues, severityId))
    ensures overview' == [Header(cols)] + OverviewRows(sel + Tier(issues, severityId), cols)
    ensures details' == [DetailsHeader] + DetailsRows(sel + Tier(issues, severityId))
    ensures maxWidthB' == MaxWidth(sel + Tier(issues, severityId))
  {
    overview', details', maxWidthB' := overview, details, maxWidthB;
    ghost var sel' := sel;
    for p := 0 to |issues|
      invariant sel' == sel + Tier(issues[..p], severityId)
      invariant AllRenderable(sel')
      invariant overview' == [Header(cols)] + OverviewRows(sel', cols)
      invariant details' == [DetailsHeader] + DetailsRows(sel')
      invariant maxWidthB' == MaxWidth(sel')
    {
      TierSnoc(issues, p, severityId);
      var plugin := issues[p];
      if plugin.severityId == severityId && plugin.instances > 0 {
        assert InTier(plugin, severityId);
        overview', details', maxWidthB' := AppendIssue(plugin, cols, sel', overview', details', maxWidthB');
        sel' := sel' + [plugin];
      }
    }
    assert issues[..|issues|] == issues;
  }

  /** The tier loop, over the tiers in the order given. */
  method RenderTiers(issues: seq<Issue>, cols: seq<string>, tiers: seq<int>,
                     overview: Sheet, details: Sheet, maxWidthB: nat)
    returns (overview': Sheet, details': Sheet, maxWidthB': nat)
    requires forall i :: 0 <= i < |tiers| ==> 1 <= tiers[i] <= 4
    requires forall i, k ::
               (0 <= i < |issues| && 1 <= issues[i].severityId <= 4 && issues[i].instances > 0
                && 0 <= k < |issues[i].hosts|) ==> issues[i].hosts[k].ip in cols
    requires overview == [Header(cols)] && details == [DetailsHeader] && maxWidthB == 1
    ensures AllRenderable(Rendered(issues, tiers))
    ensures overview' == [Header(cols)] + OverviewRows(Rendered(issues, tiers), cols)
    ensures details' == [DetailsHeader] + DetailsRows(Rendered(issues, tiers))
    ensures maxWidthB' == MaxWidth(Rendered(issues, tiers))
  {
    overview', details', maxWidthB' := overview, details, maxWidthB;
    ghost var sel: seq<Issue> := [];
    for t := 0 to |tiers|
      invariant sel == Rendered(issues, tiers[..t])
      invariant AllRenderable(sel)
      invariant overview' == [Header(cols)] + OverviewRows(sel, cols)
      invariant details' == [DetailsHeader] + DetailsRows(sel)
      invariant maxWidthB' == MaxWidth(sel)
    {
      RenderedSnoc(issues, tiers, t);
      overview', details', maxWidthB' := RenderTier(issues, cols, tiers[t], sel, overview', details', maxWidthB');
      sel := sel + Tier(issues, tiers[t]);
    }
    assert tiers[..|tiers|] == tiers;
  }

  /** Lines 115-157: the address row with two columns inserted before it,
      the details header, then the tier loop over Critical, High, Medium and
      Low; column B starts one unit wide. */
  method RenderSheets(issues: seq<Issue>, cols: seq<string>) returns (overview: Sheet, details: Sheet, maxWidthB: nat)
    requires forall i, k ::
               (0 <= i < |issues| && 1 <= issues[i].severityId <= 4 && issues[i].instances > 0
                && 0 <= k < |issues[i].hosts|) ==> issues[i].hosts[k].ip in cols
    ensures overview == OverviewSheet(issues, cols)
    ensures details == DetailsSheet(issues)
    ensures maxWidthB == MaxWidth(Selected(issues))
  {
    maxWidthB := 1;
    overview := [cols];
    overview := InsertFirstColumn(overview);
    overview := InsertFirstColumn(overview);
    HeaderByInsertion(cols);
    details := [DetailsHeader];
    overview, details, maxWidthB := RenderTiers(issues, cols, Severity.RenderedTiers, overview, details, maxWidthB);
  }
}
