/** The parsed scan report: the hosts in document order, each with its
    address, its name and its report items. XML parsing itself is not part of
    the model; a report item keeps the texts of every `description`,
    `solution` and `plugin_output` element it holds, in document order. */
module Report {
  import opened Wrappers

  datatype ReportItem = ReportItem(
    severity: int,
    pluginId: string,
    port: string,
    protocol: string,
    pluginName: string,
    descriptions: seq<string>,
    solutions: seq<string>,
    pluginOutputs: seq<string>)

  datatype ReportHost = ReportHost(ip: string, name: string, items: seq<ReportItem>)

  /** One report item together with the host it was reported on. */
  datatype Finding = Finding(ip: string, hostname: string, item: ReportItem)

  function HostFindings(h: ReportHost): (fs: seq<Finding>)
    ensures |fs| == |h.items|
    ensures forall k :: 0 <= k < |fs| ==> fs[k] == Finding(h.ip, h.name, h.items[k])
  {
    seq(|h.items|, k requires 0 <= k < |h.items| => Finding(h.ip, h.name, h.items[k]))
  }

  /** Every finding of the report, in document order: host by host, item by item. */
  function Findings(report: seq<ReportHost>): seq<Finding>
  {
    if report == [] then []
    else Findings(report[..|report| - 1]) + HostFindings(report[|report| - 1])
  }

  function ItemCount(report: seq<ReportHost>): nat
  {
    if report == [] then 0 else ItemCount(report[..|report| - 1]) + |report[|report| - 1].items|
  }

  /** Flattening loses and invents nothing: one finding per report item. */
  lemma {:induction false} FindingsCount(report: seq<ReportHost>)
    ensures |Findings(report)| == ItemCount(report)
  {
    if report != [] { FindingsCount(report[..|report| - 1]); }
  }

  lemma {:induction false} FindingsAppend(a: seq<ReportHost>, b: seq<ReportHost>)
    ensures Findings(a + b) == Findings(a) + Findings(b)
  {
    if b != [] {
      assert (a + b)[..|a + b| - 1] == a + b[..|b| - 1];
      FindingsAppend(a, b[..|b| - 1]);
    } else {
      assert a + b == a;
    }
  }

  /** The findings of a report are those before host `h`, those of host `h`
      and those after it. */
  lemma FindingsSplit(report: seq<ReportHost>, h: nat)
    requires h < |report|
    ensures Findings(report) == Findings(report[..h]) + HostFindings(report[h]) + Findings(report[h + 1..])
  {
    var pre := report[..h + 1];
    assert report == pre + report[h + 1..];
    FindingsAppend(pre, report[h + 1..]);
    assert pre[..|pre| - 1] == report[..h];
    assert Findings(pre) == Findings(report[..h]) + HostFindings(report[h]);
  }

  /** The value a loop-carried variable holds after `for e in elems: v = e.text`:
      the last text if there is one, otherwise what it held before. */
  function LastOr(texts: seq<string>, before: Option<string>): Option<string>
  {
    if |texts| > 0 then Some(texts[|texts| - 1]) else before
  }

  /** Every finding comes from a host that has report items. */
  lemma {:induction false} FindingHasHost(report: seq<ReportHost>, i: nat)
    requires i < |Findings(report)|
    ensures exists h :: 0 <= h < |report| && report[h].ip == Findings(report)[i].ip && |report[h].items| > 0
  {
    var n := |report| - 1;
    var pre := report[..n];
    assert Findings(report) == Findings(pre) + HostFindings(report[n]);
    if i < |Findings(pre)| {
      FindingHasHost(pre, i);
      var h :| 0 <= h < |pre| && pre[h].ip == Findings(pre)[i].ip && |pre[h].items| > 0;
      assert report[h] == pre[h];
    } else {
      assert Findings(report)[i].ip == report[n].ip;
    }
  }

  /** Every host with report items contributes a finding with its address. */
  lemma HostHasFinding(report: seq<ReportHost>, h: nat)
    requires h < |report| && |report[h].items| > 0
    ensures exists i :: 0 <= i < |Findings(report)| && Findings(report)[i].ip == report[h].ip
  {
    FindingsSplit(report, h);
    var i := |Findings(report[..h])|;
    assert Findings(report)[i] == HostFindings(report[h])[0];
  }

  /** A finding carries address `ip` exactly when some host with that
      address has at least one report item. */
  lemma FindingIps(report: seq<ReportHost>, ip: string)
    ensures (exists i :: 0 <= i < |Findings(report)| && Findings(report)[i].ip == ip)
        <==> (exists h :: 0 <= h < |report| && report[h].ip == ip && |report[h].items| > 0)
  {
    if exists i :: 0 <= i < |Findings(report)| && Findings(report)[i].ip == ip {
      var i :| 0 <= i < |Findings(report)| && Findings(report)[i].ip == ip;
      FindingHasHost(report, i);
    }
    if exists h :: 0 <= h < |report| && report[h].ip == ip && |report[h].items| > 0 {
      var h :| 0 <= h < |report| && report[h].ip == ip && |report[h].items| > 0;
      HostHasFinding(report, h);
    }
  }
}
