/** What the rendered sheets guarantee: their shape, which issues get rows
    and in what order, what each host cell holds, and the width of column B. */
module RenderFacts {
  import opened Wrappers
  import opened Seqs
  import opened Strings
  import opened Sorting
  import Severity
  import opened Load
  import opened Render

  /** Both sheets have a header row and then one row per rendered issue, in
      the same order: row r of the overview and row r of the details sheet
      describe the same issue. Overview rows are two cells wider than the
      host list: severity name, title, then one cell per host. */
  lemma SheetShape(issues: seq<Issue>, cols: seq<string>)
    ensures var sel := Selected(issues);
            var ov := OverviewSheet(issues, cols);
            var dt := DetailsSheet(issues);
            && AllRenderable(sel)
            && |ov| == |dt| == |sel| + 1
            && ov[0] == ["", ""] + cols
            && dt[0] == ["Name", "Description", "Solution", "Explanation", "Severity"]
            && forall r :: 1 <= r < |ov| ==>
                 && |ov[r]| == |cols| + 2
                 && ov[r][0] == dt[r][4] == Severity.Name(sel[r - 1].severityId)
                 && ov[r][1] == dt[r][0] == sel[r - 1].title
                 && dt[r] == [sel[r - 1].title, sel[r - 1].description, sel[r - 1].solution,
                              sel[r - 1].evidence, Severity.Name(sel[r - 1].severityId)]
  {
    RenderedSpec(issues, Severity.RenderedTiers);
  }

  /** An issue gets a row exactly when its tier is Critical, High, Medium or
      Low and it has at least one instance; informational issues never do. */
  lemma SelectedIff(issues: seq<Issue>)
    ensures forall x :: x in Selected(issues) <==> x in issues && 1 <= x.severityId <= 4 && x.instances > 0
  {
    RenderedSpec(issues, Severity.RenderedTiers);
  }

  predicate Descending(tiers: seq<int>)
  {
    forall i, j :: 0 <= i < j < |tiers| ==> tiers[i] > tiers[j]
  }

  lemma {:induction false} RenderedTierOrder(issues: seq<Issue>, tiers: seq<int>)
    requires Descending(tiers)
    ensures forall a, b :: 0 <= a < b < |Rendered(issues, tiers)| ==>
              Rendered(issues, tiers)[a].severityId >= Rendered(issues, tiers)[b].severityId
  {
    if tiers != [] {
      var pre := tiers[..|tiers| - 1];
      var last := tiers[|tiers| - 1];
      RenderedTierOrder(issues, pre);
      RenderedSpec(issues, pre);
      TierSpec(issues, last);
      var sel := Rendered(issues, tiers);
      var r := Rendered(issues, pre);
      forall a, b | 0 <= a < b < |sel| ensures sel[a].severityId >= sel[b].severityId {
        if b < |r| {
          assert sel[a] == r[a] && sel[b] == r[b];
          assert r[a].severityId >= r[b].severityId;
        } else {
          assert sel[b] in Tier(issues, last);
          if a < |r| {
            assert sel[a] in r;
            var k :| 0 <= k < |pre| && pre[k] == sel[a].severityId;
            assert tiers[k] > tiers[|tiers| - 1];
          } else {
            assert sel[a] in Tier(issues, last);
            assert sel[a].severityId == last == sel[b].severityId;
          }
        }
      }
    }
  }

  /** Rows come tier by tier: Critical rows first, then High, Medium, Low. */
  lemma SelectedTierOrder(issues: seq<Issue>)
    ensures forall a, b :: 0 <= a < b < |Selected(issues)| ==>
              Selected(issues)[a].severityId >= Selected(issues)[b].severityId
  {
    assert Descending(Severity.RenderedTiers);
    RenderedTierOrder(issues, Severity.RenderedTiers);
  }

  function SeverityOf(issue: Issue): int { issue.severityId }

  lemma {:induction false} TierOfTier(issues: seq<Issue>, t: int, u: int)
    ensures WithKey(Tier(issues, t), SeverityOf, u) == if t == u then Tier(issues, t) else []
  {
    if issues != [] {
      var pre := issues[..|issues| - 1];
      var x := issues[|issues| - 1];
      TierOfTier(pre, t, u);
      var extra := if InTier(x, t) then [x] else [];
      WithKeyAppend(Tier(pre, t), extra, SeverityOf, u);
      assert WithKey(extra, SeverityOf, u) == if t == u then extra else [] by {
        if extra != [] { assert extra[1..] == []; }
      }
    }
  }

  lemma {:induction false} RenderedWithinTier(issues: seq<Issue>, tiers: seq<int>, u: int)
    requires Distinct(tiers)
    ensures WithKey(Rendered(issues, tiers), SeverityOf, u) == if u in tiers then Tier(issues, u) else []
  {
    if tiers != [] {
      var pre := tiers[..|tiers| - 1];
      var last := tiers[|tiers| - 1];
      assert tiers == pre + [last];
      DistinctPrefix(tiers);
      RenderedWithinTier(issues, pre, u);
      var a := WithKey(Rendered(issues, pre), SeverityOf, u);
      var b := WithKey(Tier(issues, last), SeverityOf, u);
      WithKeyAppend(Rendered(issues, pre), Tier(issues, last), SeverityOf, u);
      assert WithKey(Rendered(issues, tiers), SeverityOf, u) == a + b;
      TierOfTier(issues, last, u);
      if u == last {
        assert a == [];
        assert a + b == b;
      } else {
        assert b == [];
        assert a + b == a;
      }
    }
  }

  /** Dropping the last element keeps a list duplicate-free, and that element
      is not among the rest. */
  lemma DistinctPrefix<T>(s: seq<T>)
    requires s != [] && Distinct(s)
    ensures Distinct(s[..|s| - 1]) && s[|s| - 1] !in s[..|s| - 1]
  {
    var pre := s[..|s| - 1];
    forall i, j | 0 <= i < j < |pre| ensures pre[i] != pre[j] { assert pre[i] == s[i] && pre[j] == s[j]; }
    forall i | 0 <= i < |pre| ensures pre[i] != s[|s| - 1] { assert pre[i] == s[i]; }
  }

  /** With distinct tiers, a one-issue list renders that issue once when its
      tier is walked and it has an instance, and renders nothing otherwise. */
  lemma {:induction false} RenderedLone(issue: Issue, tiers: seq<int>)
    requires Distinct(tiers)
    ensures Rendered([issue], tiers) == if issue.instances > 0 && issue.severityId in tiers then [issue] else []
  {
    if tiers != [] {
      var pre := tiers[..|tiers| - 1];
      var last := tiers[|tiers| - 1];
      assert tiers == pre + [last];
      DistinctPrefix(tiers);
      RenderedLone(issue, pre);
      assert [issue][..0] == [];
      assert Tier([issue], last) == if InTier(issue, last) then [issue] else [];
      assert Rendered([issue], tiers) == Rendered([issue], pre) + Tier([issue], last);
    }
  }

  lemma RenderedTiersDistinct()
    ensures Distinct(Severity.RenderedTiers)
    ensures forall u :: u in Severity.RenderedTiers <==> 1 <= u <= 4
  {
  }

  /** Within one tier the rows keep the order of the issue list. */
  lemma SelectedWithinTier(issues: seq<Issue>, u: int)
    requires 1 <= u <= 4
    ensures WithKey(Selected(issues), SeverityOf, u) == Tier(issues, u)
  {
    RenderedTiersDistinct();
    RenderedWithinTier(issues, Severity.RenderedTiers, u);
  }

  /** A tier of a list ordered by instance count is itself so ordered. */
  lemma {:induction false} TierKeepsOrder(issues: seq<Issue>, t: int)
    requires forall i, j :: 0 <= i < j < |issues| ==> issues[i].instances >= issues[j].instances
    ensures forall i, j :: 0 <= i < j < |Tier(issues, t)| ==> Tier(issues, t)[i].instances >= Tier(issues, t)[j].instances
  {
    if issues != [] {
      var pre := issues[..|issues| - 1];
      TierKeepsOrder(pre, t);
      TierSpec(pre, t);
      var tr := Tier(issues, t);
      forall i, j | 0 <= i < j < |tr| ensures tr[i].instances >= tr[j].instances {
        if j == |Tier(pre, t)| {
          assert tr[i] in pre;
        }
      }
    }
  }

  /** The occurrences of an issue on one address, in occurrence order. */
  function OnHost(occs: seq<Occurrence>, ip: string): seq<Occurrence>
  {
    if occs == [] then []
    else OnHost(occs[..|occs| - 1], ip) + (if occs[|occs| - 1].ip == ip then [occs[|occs| - 1]] else [])
  }

  function PortProtocols(occs: seq<Occurrence>): (r: seq<string>)
    ensures |r| == |occs| && forall k :: 0 <= k < |occs| ==> r[k] == PortProtocol(occs[k])
  {
    seq(|occs|, k requires 0 <= k < |occs| => PortProtocol(occs[k]))
  }

  lemma {:induction false} EntriesForHost(occs: seq<Occurrence>, cols: seq<string>, j: nat)
    requires Distinct(cols) && j < |cols|
    ensures EntriesFor(occs, cols, j) == PortProtocols(OnHost(occs, cols[j]))
  {
    if occs != [] {
      var pre := occs[..|occs| - 1];
      var o := occs[|occs| - 1];
      EntriesForHost(pre, cols, j);
      assert IndexOf(cols, o.ip) == Some(j) <==> o.ip == cols[j];
      var on := OnHost(pre, cols[j]);
      if o.ip == cols[j] {
        assert PortProtocols(on + [o]) == PortProtocols(on) + [PortProtocol(o)];
      }
    }
  }

  lemma {:induction false} OnHostEmptyIff(occs: seq<Occurrence>, ip: string)
    ensures OnHost(occs, ip) == [] <==> forall k :: 0 <= k < |occs| ==> occs[k].ip != ip
  {
    if occs != [] {
      var pre := occs[..|occs| - 1];
      OnHostEmptyIff(pre, ip);
      assert forall k :: 0 <= k < |pre| ==> pre[k] == occs[k];
    }
  }

  /** With distinct host columns, the cell of an issue under host `cols[j]`
      lists that host's occurrences' `port/protocol` entries in occurrence
      order, joined by ", \r\n", and is empty exactly when the host has no
      occurrence of the issue. */
  lemma CellContents(occs: seq<Occurrence>, cols: seq<string>, j: nat)
    requires Distinct(cols) && j < |cols|
    ensures Cell(occs, cols, j) == Join(PortProtocols(OnHost(occs, cols[j])), CellSeparator)
    ensures Cell(occs, cols, j) == "" <==> forall k :: 0 <= k < |occs| ==> occs[k].ip != cols[j]
  {
    EntriesForHost(occs, cols, j);
    OnHostEmptyIff(occs, cols[j]);
    JoinEmptyIff(PortProtocols(OnHost(occs, cols[j])), CellSeparator);
  }

  /** Column B is as wide as the longest rendered title, and at least 1. */
  lemma {:induction false} MaxWidthSpec(sel: seq<Issue>)
    ensures MaxWidth(sel) >= 1
    ensures forall i :: 0 <= i < |sel| ==> MaxWidth(sel) >= |sel[i].title|
    ensures MaxWidth(sel) == 1 || exists i :: 0 <= i < |sel| && MaxWidth(sel) == |sel[i].title|
  {
    if sel != [] {
      var pre := sel[..|sel| - 1];
      MaxWidthSpec(pre);
      assert forall i :: 0 <= i < |pre| ==> pre[i] == sel[i];
    }
  }

  /** Overview row `r` below the header is the row of the `r`-th rendered issue. */
  lemma OverviewRowAt(issues: seq<Issue>, cols: seq<string>, r: nat)
    requires 1 <= r < |OverviewSheet(issues, cols)|
    ensures AllRenderable(Selected(issues)) && r - 1 < |Selected(issues)|
    ensures OverviewSheet(issues, cols)[r] == OverviewRow(Selected(issues)[r - 1], cols)
  {
    RenderedSpec(issues, Severity.RenderedTiers);
  }

  /** Overview row `r` and host column `j`, for distinct host columns: the
      cell lists the `port/protocol` of each occurrence of that row's issue on
      that host, and is empty exactly when there is none. */
  lemma OverviewCell(issues: seq<Issue>, cols: seq<string>, r: nat, j: nat)
    requires Distinct(cols)
    requires 1 <= r < |OverviewSheet(issues, cols)| && j < |cols|
    ensures r - 1 < |Selected(issues)|
    ensures var issue := Selected(issues)[r - 1];
            && OverviewSheet(issues, cols)[r][j + 2] == Join(PortProtocols(OnHost(issue.hosts, cols[j])), CellSeparator)
            && (OverviewSheet(issues, cols)[r][j + 2] == "" <==>
                forall k :: 0 <= k < |issue.hosts| ==> issue.hosts[k].ip != cols[j])
  {
    var sel := Selected(issues);
    OverviewRowAt(issues, cols, r);
    assert OverviewSheet(issues, cols)[r][j + 2] == Cell(sel[r - 1].hosts, cols, j);
    CellContents(sel[r - 1].hosts, cols, j);
  }
}
