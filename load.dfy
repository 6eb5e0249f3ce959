/** The load pass: one walk over every finding of the report that fills two
    insertion-ordered tables, issues keyed by plugin id and hosts keyed by
    address. */
module Load {
  import opened Wrappers
  import opened Seqs
  import opened Report

  /** One place an issue was found: the entry of an issue's `hosts` list. */
  datatype Occurrence = Occurrence(hostname: string, ip: string, port: string, protocol: string)

  /** The record kept per plugin id: metadata from the first finding with that
      id, a counter and the occurrences in scan order. */
  datatype Issue = Issue(
    pluginId: string,
    instances: nat,
    severityId: int,
    title: string,
    description: string,
    solution: string,
    evidence: string,
    hosts: seq<Occurrence>)

  /** One entry of a host's `issues` list. */
  datatype HostIssue = HostIssue(
    port: string,
    protocol: string,
    pluginName: string,
    severityId: int,
    description: string,
    solution: string,
    evidence: string)

  datatype HostRecord = HostRecord(ip: string, hostname: string, issues: seq<HostIssue>)

  /** The two dictionaries; a Python dict iterates in insertion order, which
      `pluginOrder` and `hostOrder` record. */
  datatype Tables = Tables(
    plugins: map<string, Issue>,
    pluginOrder: seq<string>,
    hosts: map<string, HostRecord>,
    hostOrder: seq<string>)

  /** The three text variables the loop carries from one finding to the next;
      `None` while a variable has never been assigned. */
  datatype Carried = Carried(description: Option<string>, solution: Option<string>, evidence: Option<string>)

  datatype LoadState = LoadState(tables: Tables, carried: Carried)

  /** Reading a text variable that was never assigned (Python's NameError). */
  datatype LoadError = Unbound(name: string)

  /** `plugins.values()`: the issue records in key-insertion order. */
  function Values(t: Tables): (vs: seq<Issue>)
    requires forall p :: p in t.pluginOrder ==> p in t.plugins
    ensures |vs| == |t.pluginOrder|
    ensures forall i :: 0 <= i < |vs| ==> vs[i] == t.plugins[t.pluginOrder[i]]
  {
    seq(|t.pluginOrder|, i requires 0 <= i < |t.pluginOrder| => t.plugins[t.pluginOrder[i]])
  }

  /** `hosts.values()`: the host records in key-insertion order. */
  function HostValues(t: Tables): (vs: seq<HostRecord>)
    requires forall ip :: ip in t.hostOrder ==> ip in t.hosts
    ensures |vs| == |t.hostOrder|
    ensures forall i :: 0 <= i < |vs| ==> vs[i] == t.hosts[t.hostOrder[i]]
  {
    seq(|t.hostOrder|, i requires 0 <= i < |t.hostOrder| => t.hosts[t.hostOrder[i]])
  }

  const EmptyTables := Tables(map[], [], map[], [])
  const Start := LoadState(EmptyTables, Carried(None, None, None))

  /** The texts visible after reading one more report item. */
  function Carry(c: Carried, item: ReportItem): Carried
  {
    Carried(LastOr(item.descriptions, c.description),
            LastOr(item.solutions, c.solution),
            LastOr(item.pluginOutputs, c.evidence))
  }

  /** The first carried variable that is still unassigned, in the order the
      record literals read them. */
  function Missing(c: Carried): Option<LoadError>
  {
    if c.description.None? then Some(Unbound("description"))
    else if c.solution.None? then Some(Unbound("solution"))
    else if c.evidence.None? then Some(Unbound("evidence"))
    else None
  }

  /** Lines up the issue table after one finding: a new plugin id gets a
      record with the finding's metadata and a zero counter; then the counter
      goes up by one and the occurrence is appended. */
  function RecordIssue(plugins: map<string, Issue>, f: Finding, description: string, solution: string, evidence: string)
    : map<string, Issue>
  {
    var id := f.item.pluginId;
    var p0 := if id in plugins then plugins
              else plugins[id := Issue(id, 0, f.item.severity, f.item.pluginName, description, solution, evidence, [])];
    var p1 := p0[id := p0[id].(instances := p0[id].instances + 1)];
    p1[id := p1[id].(hosts := p1[id].hosts + [Occurrence(f.hostname, f.ip, f.item.port, f.item.protocol)])]
  }

  /** The host table after one finding: a new address gets a record with the
      finding's host name; then the per-finding summary is appended. */
  function RecordHost(hosts: map<string, HostRecord>, f: Finding, description: string, solution: string, evidence: string)
    : map<string, HostRecord>
  {
    var h0 := if f.ip in hosts then hosts else hosts[f.ip := HostRecord(f.ip, f.hostname, [])];
    h0[f.ip := h0[f.ip].(issues := h0[f.ip].issues + [HostIssue(f.item.port, f.item.protocol, f.item.pluginName,
                                                              f.item.severity, description, solution, evidence)])]
  }

  /** A dict's key order after `d[k] = ...`: a new key goes last. */
  function InsertKey(order: seq<string>, present: bool, k: string): seq<string>
  {
    if present then order else order + [k]
  }

  /** Records one finding with its (already assigned) texts in both tables. */
  function Record(t: Tables, f: Finding, description: string, solution: string, evidence: string): Tables
  {
    Tables(RecordIssue(t.plugins, f, description, solution, evidence),
           InsertKey(t.pluginOrder, f.item.pluginId in t.plugins, f.item.pluginId),
           RecordHost(t.hosts, f, description, solution, evidence),
           InsertKey(t.hostOrder, f.ip in t.hosts, f.ip))
  }

  /** One iteration of the inner loop. */
  function Step(st: LoadState, f: Finding): Result<LoadState, LoadError>
  {
    var c := Carry(st.carried, f.item);
    match Missing(c)
    case Some(e) => Err(e)
    case None => Ok(LoadState(Record(st.tables, f, c.description.value, c.solution.value, c.evidence.value), c))
  }

  /** The state after the loop has consumed `fs`, or the error that stopped it. */
  function Run(fs: seq<Finding>): Result<LoadState, LoadError>
  {
    if fs == [] then Ok(Start)
    else match Run(fs[..|fs| - 1])
      case Err(e) => Err(e)
      case Ok(st) => Step(st, fs[|fs| - 1])
  }

  /** What loading a whole report yields. */
  function LoadSpec(report: seq<ReportHost>): Result<Tables, LoadError>
  {
    match Run(Findings(report))
    case Err(e) => Err(e)
    case Ok(st) => Ok(st.tables)
  }

  lemma RunSnoc(fs: seq<Finding>, f: Finding)
    ensures Run(fs + [f]) == match Run(fs) case Err(e) => Err(e) case Ok(st) => Step(st, f)
  {
    assert (fs + [f])[..|fs|] == fs;
  }

  /** One more finding of the current host: the loop either stops on an
      unassigned text or records the finding with the texts now carried. */
  lemma RunNext(done: seq<Finding>, hf: seq<Finding>, k: nat, st: LoadState, c: Carried)
    requires k < |hf| && Run(done + hf[..k]) == Ok(st) && c == Carry(st.carried, hf[k].item)
    ensures Run(done + hf[..k + 1])
         == if Missing(c).Some? then Err(Missing(c).value)
            else Ok(LoadState(Record(st.tables, hf[k], c.description.value, c.solution.value, c.evidence.value), c))
  {
    TakeSnoc(hf, k);
    assert done + hf[..k + 1] == (done + hf[..k]) + [hf[k]];
    RunSnoc(done + hf[..k], hf[k]);
  }

  /** The findings of the first `h + 1` hosts: those of the first `h`, then
      host `h`'s own. */
  lemma FindingsTake(report: seq<ReportHost>, h: nat)
    requires h < |report|
    ensures Findings(report[..h + 1]) == Findings(report[..h]) + HostFindings(report[h])[..|report[h].items|]
  {
    assert report[..h + 1][..h] == report[..h];
    assert HostFindings(report[h])[..|report[h].items|] == HostFindings(report[h]);
  }

  /** Before the first item of a host, nothing of it has been consumed. */
  lemma TakeNone(done: seq<Finding>, hf: seq<Finding>)
    ensures done + hf[..0] == done
  {
    assert hf[..0] == [];
  }

  /** Once the loop has stopped with an error, later findings change nothing. */
  lemma {:induction false} RunErrSticky(a: seq<Finding>, b: seq<Finding>)
    requires Run(a).Err?
    ensures Run(a + b) == Run(a)
  {
    if b != [] {
      var b' := b[..|b| - 1];
      RunErrSticky(a, b');
      assert a + b == (a + b') + [b[|b| - 1]];
      RunSnoc(a + b', b[|b| - 1]);
    } else {
      assert a + b == a;
    }
  }

  /** `for e in elems: v = e.text` over one kind of child element. */
  method LastText(texts: seq<string>, before: Option<string>) returns (v: Option<string>)
    ensures v == LastOr(texts, before)
    ensures v.Some? <==> |texts| > 0 || before.Some?
  {
    v := before;
    for k := 0 to |texts|
      invariant v == if k == 0 then before else Some(texts[k - 1])
    {
      v := Some(texts[k]);
    }
  }

  /** The body of the load loop once the texts are known: both dictionaries
      updated in place. */
  method RecordFinding(plugins: map<string, Issue>, pluginOrder: seq<string>,
                       hosts: map<string, HostRecord>, hostOrder: seq<string>,
                       ip: string, hostname: string, item: ReportItem,
                       description: string, solution: string, evidence: string)
    returns (plugins': map<string, Issue>, pluginOrder': seq<string>,
             hosts': map<string, HostRecord>, hostOrder': seq<string>)
    ensures Tables(plugins', pluginOrder', hosts', hostOrder')
         == Record(Tables(plugins, pluginOrder, hosts, hostOrder), Finding(ip, hostname, item), description, solution, evidence)
  {
    var pluginId := item.pluginId;
    plugins', pluginOrder' := plugins, pluginOrder;
    if pluginId !in plugins' {
      plugins' := plugins'[pluginId := Issue(pluginId, 0, item.severity, item.pluginName,
                                             description, solution, evidence, [])];
      pluginOrder' := pluginOrder' + [pluginId];
    }
    plugins' := plugins'[pluginId := plugins'[pluginId].(instances := plugins'[pluginId].instances + 1)];
    plugins' := plugins'[pluginId := plugins'[pluginId].(hosts := plugins'[pluginId].hosts
                                                                + [Occurrence(hostname, ip, item.port, item.protocol)])];
    hosts', hostOrder' := hosts, hostOrder;
    if ip !in hosts' {
      hosts' := hosts'[ip := HostRecord(ip, hostname, [])];
      hostOrder' := hostOrder' + [ip];
    }
    hosts' := hosts'[ip := hosts'[ip].(issues := hosts'[ip].issues
                                                 + [HostIssue(item.port, item.protocol, item.pluginName, item.severity,
                                                              description, solution, evidence)])];
  }

  /** The load loop over every host and every report item. */
  method LoadReport(report: seq<ReportHost>) returns (r: Result<Tables, LoadError>)
    ensures r == LoadSpec(report)
  {
    var plugins: map<string, Issue> := map[];
    var pluginOrder: seq<string> := [];
    var hosts: map<string, HostRecord> := map[];
    var hostOrder: seq<string> := [];
    var description: Option<string> := None;
    var solution: Option<string> := None;
    var evidence: Option<string> := None;
    var h := 0;
    while h < |report|
      invariant 0 <= h <= |report|
      invariant Run(Findings(report[..h]))
             == Ok(LoadState(Tables(plugins, pluginOrder, hosts, hostOrder), Carried(description, solution, evidence)))
    {
      var ip := report[h].ip;
      var hostname := report[h].name;
      ghost var done := Findings(report[..h]);
      ghost var hf := HostFindings(report[h]);
      var k := 0;
      TakeNone(done, hf);
      while k < |report[h].items|
        invariant 0 <= k <= |report[h].items|
        invariant Run(done + hf[..k])
               == Ok(LoadState(Tables(plugins, pluginOrder, hosts, hostOrder), Carried(description, solution, evidence)))
      {
        var item := report[h].items[k];
        ghost var f := Finding(ip, hostname, item);
        ghost var before := LoadState(Tables(plugins, pluginOrder, hosts, hostOrder), Carried(description, solution, evidence));
        description := LastText(item.descriptions, description);
        solution := LastText(item.solutions, solution);
        evidence := LastText(item.pluginOutputs, evidence);
        ghost var c := Carried(description, solution, evidence);
        assert hf[k] == f;
        RunNext(done, hf, k, before, c);
        // Reading a never-assigned text stops the script; this can only
        // happen at the first item of the report.
        if description.None? || solution.None? || evidence.None? {
          r := Err(if description.None? then Unbound("description")
                   else if solution.None? then Unbound("solution")
                   else Unbound("evidence"));
          StopsLoad(report, h, k);
          return;
        }
        plugins, pluginOrder, hosts, hostOrder :=
          RecordFinding(plugins, pluginOrder, hosts, hostOrder, ip, hostname, item,
                        description.value, solution.value, evidence.value);
        k := k + 1;
      }
      FindingsTake(report, h);
      h := h + 1;
    }
    assert report[..h] == report;
    assert Run(Findings(report)).Ok?;
    r := Ok(Tables(plugins, pluginOrder, hosts, hostOrder));
  }

  /** An error at item `k` of host `h` is the error of the whole report. */
  lemma StopsLoad(report: seq<ReportHost>, h: nat, k: nat)
    requires h < |report| && k < |report[h].items|
    requires Run(Findings(report[..h]) + HostFindings(report[h])[..k + 1]).Err?
    ensures Run(Findings(report)) == Run(Findings(report[..h]) + HostFindings(report[h])[..k + 1])
  {
    var hf := HostFindings(report[h]);
    var before := Findings(report[..h]);
    var after := Findings(report[h + 1..]);
    var a := before + hf[..k + 1];
    var b := hf[k + 1..] + after;
    FindingsSplit(report, h);
    Regroup(before, hf, after, k + 1);
    RunErrSticky(a, b);
  }
}
