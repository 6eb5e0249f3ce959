/** What the load pass guarantees, stated over the findings it consumed:
    the shape of both tables, where each record's contents come from, and
    the counts. */
module LoadFacts {
  import opened Wrappers
  import opened Seqs
  import opened Report
  import opened Load

  /** The invariant of the issue table: the key order lists each plugin id
      once and exactly the ids present; every issue is filed under its own id;
      its counter is the length of its occurrence list and is positive; every
      address it occurred on has a host record. */
  ghost predicate IssuesWf(t: Tables)
  {
    && Distinct(t.pluginOrder)
    && (forall p :: p in t.plugins <==> p in t.pluginOrder)
    && (forall p :: p in t.plugins ==>
          t.plugins[p].pluginId == p && t.plugins[p].instances == |t.plugins[p].hosts| > 0)
    && (forall p, j :: p in t.plugins && 0 <= j < |t.plugins[p].hosts| ==> t.plugins[p].hosts[j].ip in t.hosts)
  }

  /** The invariant of the host table: the key order lists each address once
      and exactly the addresses present; every record is filed under its own
      address and has at least one issue. */
  ghost predicate HostsWf(t: Tables)
  {
    && Distinct(t.hostOrder)
    && (forall ip :: ip in t.hosts <==> ip in t.hostOrder)
    && (forall ip :: ip in t.hosts ==> t.hosts[ip].ip == ip && |t.hosts[ip].issues| > 0)
  }

  ghost predicate Wf(t: Tables)
  {
    IssuesWf(t) && HostsWf(t)
  }

  /** A dict's key order stays duplicate-free and in step with its keys. */
  lemma InsertKeyKeeps<V>(m: map<string, V>, order: seq<string>, k: string, v: V)
    requires Distinct(order) && forall p :: p in m <==> p in order
    ensures Distinct(InsertKey(order, k in m, k))
    ensures forall p :: p in m[k := v] <==> p in InsertKey(order, k in m, k)
  {
    if k !in m {
      var o := order + [k];
      forall i, j | 0 <= i < j < |o| ensures o[i] != o[j] {
        if j == |order| { assert o[i] == order[i]; }
      }
    }
  }

  /** Recording a finding updates only its own plugin id's issue, which gains
      one instance and one occurrence. */
  lemma RecordIssueEntry(t: Tables, f: Finding, d: string, s: string, e: string, p: string)
    requires p in Record(t, f, d, s, e).plugins
    ensures var issue := Record(t, f, d, s, e).plugins[p];
            if p == f.item.pluginId && p !in t.plugins then
              issue.pluginId == p && issue.instances == 1 && issue.hosts == [Occurrence(f.hostname, f.ip, f.item.port, f.item.protocol)]
            else if p == f.item.pluginId then
              issue.pluginId == t.plugins[p].pluginId && issue.instances == t.plugins[p].instances + 1
              && issue.hosts == t.plugins[p].hosts + [Occurrence(f.hostname, f.ip, f.item.port, f.item.protocol)]
            else p in t.plugins && issue == t.plugins[p]
  {
  }

  lemma RecordKeepsIssuesWf(t: Tables, f: Finding, d: string, s: string, e: string)
    requires IssuesWf(t)
    ensures IssuesWf(Record(t, f, d, s, e))
  {
    var t' := Record(t, f, d, s, e);
    var id := f.item.pluginId;
    InsertKeyKeeps(t.plugins, t.pluginOrder, id, Issue(id, 0, 0, "", "", "", "", []));
    assert t'.plugins.Keys == t.plugins.Keys + {id};
    assert f.ip in t'.hosts && forall ip :: ip in t.hosts ==> ip in t'.hosts;
    forall p | p in t'.plugins
      ensures t'.plugins[p].pluginId == p && t'.plugins[p].instances == |t'.plugins[p].hosts| > 0
      ensures forall j :: 0 <= j < |t'.plugins[p].hosts| ==> t'.plugins[p].hosts[j].ip in t'.hosts
    {
      RecordIssueEntry(t, f, d, s, e, p);
    }
  }

  lemma RecordKeepsHostsWf(t: Tables, f: Finding, d: string, s: string, e: string)
    requires HostsWf(t)
    ensures HostsWf(Record(t, f, d, s, e))
  {
  }

  /** Recording one finding keeps both invariants. */
  lemma RecordKeepsWf(t: Tables, f: Finding, d: string, s: string, e: string)
    requires Wf(t)
    ensures Wf(Record(t, f, d, s, e))
  {
    RecordKeepsIssuesWf(t, f, d, s, e);
    RecordKeepsHostsWf(t, f, d, s, e);
  }

  /** Every state the load loop reaches satisfies the invariant. */
  lemma {:induction false} RunWf(fs: seq<Finding>)
    requires Run(fs).Ok?
    ensures Wf(Run(fs).value.tables)
  {
    if fs != [] {
      var pre := fs[..|fs| - 1];
      RunWf(pre);
      var st := Run(pre).value;
      var c := Carry(st.carried, fs[|fs| - 1].item);
      RecordKeepsWf(st.tables, fs[|fs| - 1], c.description.value, c.solution.value, c.evidence.value);
    }
  }

  /** The carried texts after reading the items of `fs`, in order. */
  function CarriedAfter(fs: seq<Finding>): Carried
  {
    if fs == [] then Start.carried else Carry(CarriedAfter(fs[..|fs| - 1]), fs[|fs| - 1].item)
  }

  /** The loop's text variables are exactly the carried-over texts, and once
      one finding has been recorded none of them is unassigned any more. */
  lemma {:induction false} RunCarried(fs: seq<Finding>)
    requires Run(fs).Ok?
    ensures Run(fs).value.carried == CarriedAfter(fs)
    ensures fs != [] ==> Missing(CarriedAfter(fs)).None?
  {
    if fs != [] { RunCarried(fs[..|fs| - 1]); }
  }

  /** Carrying never unassigns a variable. */
  lemma CarryKeepsAssigned(c: Carried, item: ReportItem)
    requires Missing(c).None?
    ensures Missing(Carry(c, item)).None?
  {
  }

  /** The load stops with an error exactly when the very first report item
      lacks a description, a solution or a plugin output, and the error names
      the first of these three that is missing. */
  lemma {:induction false} RunErrIff(fs: seq<Finding>)
    ensures Run(fs).Err? <==> fs != [] && Missing(Carry(Start.carried, fs[0].item)).Some?
    ensures Run(fs).Err? ==> Some(Run(fs).error) == Missing(Carry(Start.carried, fs[0].item))
  {
    if |fs| > 1 {
      var pre := fs[..|fs| - 1];
      RunErrIff(pre);
      assert pre[0] == fs[0];
      if Run(pre).Ok? {
        RunCarried(pre);
        CarryKeepsAssigned(Run(pre).value.carried, fs[|fs| - 1].item);
      }
    } else if |fs| == 1 {
      assert fs[..0] == [];
    }
  }

  function PluginIds(fs: seq<Finding>): (ids: seq<string>)
    ensures |ids| == |fs| && forall i :: 0 <= i < |fs| ==> ids[i] == fs[i].item.pluginId
  {
    seq(|fs|, i requires 0 <= i < |fs| => fs[i].item.pluginId)
  }

  function Ips(fs: seq<Finding>): (ips: seq<string>)
    ensures |ips| == |fs| && forall i :: 0 <= i < |fs| ==> ips[i] == fs[i].ip
  {
    seq(|fs|, i requires 0 <= i < |fs| => fs[i].ip)
  }

  /** Both dictionaries list their keys in first-encounter order: issues by
      the plugin ids, hosts by the addresses, as the findings bring them. */
  lemma {:induction false} RunKeyOrder(fs: seq<Finding>)
    requires Run(fs).Ok?
    ensures Run(fs).value.tables.pluginOrder == Dedup(PluginIds(fs))
    ensures Run(fs).value.tables.hostOrder == Dedup(Ips(fs))
  {
    if fs != [] {
      var pre := fs[..|fs| - 1];
      RunKeyOrder(pre);
      RunWf(pre);
      assert PluginIds(fs)[..|fs| - 1] == PluginIds(pre);
      assert Ips(fs)[..|fs| - 1] == Ips(pre);
    }
  }

  /** The occurrences a finding list gives plugin `p`: one per finding with
      that plugin id, in scan order. */
  function OccurrencesOf(fs: seq<Finding>, p: string): seq<Occurrence>
  {
    if fs == [] then []
    else
      var f := fs[|fs| - 1];
      OccurrencesOf(fs[..|fs| - 1], p)
        + (if f.item.pluginId == p then [Occurrence(f.hostname, f.ip, f.item.port, f.item.protocol)] else [])
  }

  /** An issue's occurrence list holds one entry per finding with its plugin
      id, in scan order; a plugin id without findings has no record. */
  lemma {:induction false} RunOccurrences(fs: seq<Finding>, p: string)
    requires Run(fs).Ok?
    ensures p in Run(fs).value.tables.plugins ==> Run(fs).value.tables.plugins[p].hosts == OccurrencesOf(fs, p)
    ensures p !in Run(fs).value.tables.plugins ==> OccurrencesOf(fs, p) == []
  {
    if fs != [] {
      RunOccurrences(fs[..|fs| - 1], p);
    }
  }

  /** A plugin id that no finding carries has no issue. */
  lemma {:induction false} UnseenPluginAbsent(fs: seq<Finding>, id: string)
    requires Run(fs).Ok?
    requires forall j :: 0 <= j < |fs| ==> fs[j].item.pluginId != id
    ensures id !in Run(fs).value.tables.plugins
  {
    if fs != [] {
      UnseenPluginAbsent(fs[..|fs| - 1], id);
    }
  }

  /** An address that no finding carries has no host record. */
  lemma {:induction false} UnseenHostAbsent(fs: seq<Finding>, ip: string)
    requires Run(fs).Ok?
    requires forall j :: 0 <= j < |fs| ==> fs[j].ip != ip
    ensures ip !in Run(fs).value.tables.hosts
  {
    if fs != [] {
      UnseenHostAbsent(fs[..|fs| - 1], ip);
    }
  }

  /** A new plugin id's issue takes the finding's severity and title and the
      given texts. */
  lemma NewIssue(t: Tables, f: Finding, d: string, s: string, e: string)
    requires f.item.pluginId !in t.plugins
    ensures var issue := Record(t, f, d, s, e).plugins[f.item.pluginId];
            && issue.severityId == f.item.severity && issue.title == f.item.pluginName
            && issue.description == d && issue.solution == s && issue.evidence == e
  {
  }

  /** A known plugin id's issue keeps its severity, title and texts. */
  lemma KeptIssue(t: Tables, f: Finding, d: string, s: string, e: string, id: string)
    requires id in t.plugins
    ensures id in Record(t, f, d, s, e).plugins
    ensures var issue := Record(t, f, d, s, e).plugins[id];
            && issue.severityId == t.plugins[id].severityId && issue.title == t.plugins[id].title
            && issue.description == t.plugins[id].description && issue.solution == t.plugins[id].solution
            && issue.evidence == t.plugins[id].evidence
  {
  }

  /** An issue's metadata comes from the first finding with its plugin id:
      severity and title from the report item, the three texts as carried at
      that finding. */
  lemma {:induction false} IssueFromFirstFinding(fs: seq<Finding>, i: nat)
    requires Run(fs).Ok? && i < |fs|
    requires forall j :: 0 <= j < i ==> fs[j].item.pluginId != fs[i].item.pluginId
    ensures fs[i].item.pluginId in Run(fs).value.tables.plugins
    ensures var issue := Run(fs).value.tables.plugins[fs[i].item.pluginId];
            && issue.severityId == fs[i].item.severity
            && issue.title == fs[i].item.pluginName
            && Some(issue.description) == CarriedAfter(fs[..i + 1]).description
            && Some(issue.solution) == CarriedAfter(fs[..i + 1]).solution
            && Some(issue.evidence) == CarriedAfter(fs[..i + 1]).evidence
  {
    var pre := fs[..|fs| - 1];
    if i == |fs| - 1 {
      UnseenPluginAbsent(pre, fs[i].item.pluginId);
      RunCarried(pre);
      assert fs[..i + 1] == fs;
      var st := Run(pre).value;
      var c := Carry(st.carried, fs[i].item);
      NewIssue(st.tables, fs[i], c.description.value, c.solution.value, c.evidence.value);
    } else {
      IssueFromFirstFinding(pre, i);
      assert pre[..i + 1] == fs[..i + 1];
      var st := Run(pre).value;
      var c := Carry(st.carried, fs[|fs| - 1].item);
      assert Run(fs).value.tables == Record(st.tables, fs[|fs| - 1], c.description.value, c.solution.value, c.evidence.value);
      KeptIssue(st.tables, fs[|fs| - 1], c.description.value, c.solution.value, c.evidence.value, fs[i].item.pluginId);
    }
  }

  /** A host record keeps the host name of the first finding on its address. */
  lemma {:induction false} HostFromFirstFinding(fs: seq<Finding>, i: nat)
    requires Run(fs).Ok? && i < |fs|
    requires forall j :: 0 <= j < i ==> fs[j].ip != fs[i].ip
    ensures fs[i].ip in Run(fs).value.tables.hosts
    ensures Run(fs).value.tables.hosts[fs[i].ip].hostname == fs[i].hostname
  {
    var pre := fs[..|fs| - 1];
    if i == |fs| - 1 {
      UnseenHostAbsent(pre, fs[i].ip);
    } else {
      HostFromFirstFinding(pre, i);
    }
  }

  /** The summaries a finding list appends to the host at `ip`: one per
      finding on that address, in scan order, with the texts carried at that
      finding. */
  ghost function HostIssuesOf(fs: seq<Finding>, ip: string): seq<HostIssue>
    requires Run(fs).Ok?
  {
    if fs == [] then []
    else
      RunCarried(fs);
      var f := fs[|fs| - 1];
      var c := CarriedAfter(fs);
      HostIssuesOf(fs[..|fs| - 1], ip)
        + (if f.ip == ip
           then [HostIssue(f.item.port, f.item.protocol, f.item.pluginName, f.item.severity,
                           c.description.value, c.solution.value, c.evidence.value)]
           else [])
  }

  /** A host's issue list holds one summary per finding on its address, in
      scan order; an address without findings has no record. */
  lemma {:induction false} RunHostIssues(fs: seq<Finding>, ip: string)
    requires Run(fs).Ok?
    ensures ip in Run(fs).value.tables.hosts ==> Run(fs).value.tables.hosts[ip].issues == HostIssuesOf(fs, ip)
    ensures ip !in Run(fs).value.tables.hosts ==> HostIssuesOf(fs, ip) == []
  {
    if fs != [] {
      RunHostIssues(fs[..|fs| - 1], ip);
      RunCarried(fs[..|fs| - 1]);
    }
  }

  function Instances(issue: Issue): nat { issue.instances }

  function IssueCount(host: HostRecord): nat { |host.issues| }

  /** One issue gains an instance (a new id entering with one) and every
      other issue is unchanged: the counters' sum grows by one. */
  lemma IssueCountersStep(t: Tables, t': Tables, id: string)
    requires Distinct(t.pluginOrder) && forall p :: p in t.plugins <==> p in t.pluginOrder
    requires t'.pluginOrder == InsertKey(t.pluginOrder, id in t.plugins, id)
    requires forall p :: p in t'.plugins <==> p in t.plugins || p == id
    requires forall p :: p in t.plugins && p != id ==> t'.plugins[p] == t.plugins[p]
    requires id in t'.plugins && t'.plugins[id].instances == (if id in t.plugins then t.plugins[id].instances else 0) + 1
    ensures Sum(Values(t'), Instances) == Sum(Values(t), Instances) + 1
  {
    var vs := Values(t);
    var vs' := Values(t');
    var k: nat := |vs|;
    if id in t.plugins {
      var j :| 0 <= j < |t.pluginOrder| && t.pluginOrder[j] == id;
      k := j;
    }
    forall i | 0 <= i < |vs| && i != k ensures vs'[i] == vs[i] {
      assert t'.pluginOrder[i] == t.pluginOrder[i] != id;
    }
    SumGrowsByOne(vs, vs', Instances, k);
  }

  /** Recording a finding adds one to the sum of the issue counters. */
  lemma RecordCountsIssue(t: Tables, f: Finding, d: string, s: string, e: string)
    requires Distinct(t.pluginOrder) && forall p :: p in t.plugins <==> p in t.pluginOrder
    ensures Sum(Values(Record(t, f, d, s, e)), Instances) == Sum(Values(t), Instances) + 1
  {
    IssueCountersStep(t, Record(t, f, d, s, e), f.item.pluginId);
  }

  /** One host record gains a summary (a new address entering with one) and
      every other record is unchanged: the lengths' sum grows by one. */
  lemma HostCountersStep(t: Tables, t': Tables, ip: string)
    requires Distinct(t.hostOrder) && forall a :: a in t.hosts <==> a in t.hostOrder
    requires t'.hostOrder == InsertKey(t.hostOrder, ip in t.hosts, ip)
    requires forall a :: a in t'.hosts <==> a in t.hosts || a == ip
    requires forall a :: a in t.hosts && a != ip ==> t'.hosts[a] == t.hosts[a]
    requires ip in t'.hosts && |t'.hosts[ip].issues| == (if ip in t.hosts then |t.hosts[ip].issues| else 0) + 1
    ensures Sum(HostValues(t'), IssueCount) == Sum(HostValues(t), IssueCount) + 1
  {
    var vs := HostValues(t);
    var vs' := HostValues(t');
    var k: nat := |vs|;
    if ip in t.hosts {
      var j :| 0 <= j < |t.hostOrder| && t.hostOrder[j] == ip;
      k := j;
    }
    forall i | 0 <= i < |vs| && i != k ensures vs'[i] == vs[i] {
      assert t'.hostOrder[i] == t.hostOrder[i] != ip;
    }
    SumGrowsByOne(vs, vs', IssueCount, k);
  }

  /** Recording a finding adds one to the total length of the hosts' issue lists. */
  lemma RecordCountsHostIssue(t: Tables, f: Finding, d: string, s: string, e: string)
    requires Distinct(t.hostOrder) && forall ip :: ip in t.hosts <==> ip in t.hostOrder
    ensures Sum(HostValues(Record(t, f, d, s, e)), IssueCount) == Sum(HostValues(t), IssueCount) + 1
  {
    HostCountersStep(t, Record(t, f, d, s, e), f.ip);
  }

  /** Each finding adds one to exactly one issue counter and one entry to
      exactly one host: the counters sum to the number of findings, and so do
      the lengths of the hosts' issue lists. */
  lemma {:induction false} RunTotals(fs: seq<Finding>)
    requires Run(fs).Ok?
    ensures Wf(Run(fs).value.tables)
    ensures Sum(Values(Run(fs).value.tables), Instances) == |fs|
    ensures Sum(HostValues(Run(fs).value.tables), IssueCount) == |fs|
  {
    RunWf(fs);
    if fs != [] {
      var pre := fs[..|fs| - 1];
      RunTotals(pre);
      var st := Run(pre).value;
      var c := Carry(st.carried, fs[|fs| - 1].item);
      RecordCountsIssue(st.tables, fs[|fs| - 1], c.description.value, c.solution.value, c.evidence.value);
      RecordCountsHostIssue(st.tables, fs[|fs| - 1], c.description.value, c.solution.value, c.evidence.value);
    }
  }
}
