/** The two sorts between loading and rendering: issues by instance count,
    highest first, and hosts by address text, ascending. */
module Order {
  import opened Seqs
  import opened Strings
  import opened Sorting
  import opened Load
  import opened LoadFacts

  /** The comparison behind `reverse=True` on an integer key. */
  predicate AtLeast(a: nat, b: nat) { a >= b }

  function HostIp(h: HostRecord): string { h.ip }

  /** `sorted(plugins.values(), key=instances, reverse=True)`. */
  function SortIssues(vs: seq<Issue>): seq<Issue>
  {
    SortBy(vs, Instances, AtLeast)
  }

  /** `sorted(hosts.values(), key=ip)`. */
  function SortHosts(vs: seq<HostRecord>): seq<HostRecord>
  {
    SortBy(vs, HostIp, LexLe)
  }

  lemma AtLeastIsTotalOrder()
    ensures TotalOrder(AtLeast)
  {
  }

  lemma LexLeIsTotalOrder()
    ensures TotalOrder(LexLe)
  {
    forall a ensures LexLe(a, a) { LexReflexive(a); }
    forall a, b | LexLe(a, b) && LexLe(b, a) ensures a == b { LexAntisymmetric(a, b); }
    forall a, b, c | LexLe(a, b) && LexLe(b, c) ensures LexLe(a, c) { LexTransitive(a, b, c); }
    forall a, b ensures LexLe(a, b) || LexLe(b, a) { LexTotal(a, b); }
  }

  /** The issue list is a permutation of the records, ordered by instance
      count from highest to lowest; issues with equal counts keep the order
      in which their plugin ids were first met. */
  lemma SortIssuesSpec(vs: seq<Issue>)
    ensures multiset(SortIssues(vs)) == multiset(vs)
    ensures forall i, j :: 0 <= i < j < |SortIssues(vs)| ==> SortIssues(vs)[i].instances >= SortIssues(vs)[j].instances
    ensures forall n :: WithKey(SortIssues(vs), Instances, n) == WithKey(vs, Instances, n)
  {
    AtLeastIsTotalOrder();
    SortBySpec(vs, Instances, AtLeast);
    var r := SortIssues(vs);
    forall i, j | 0 <= i < j < |r| ensures r[i].instances >= r[j].instances {
      assert AtLeast(Instances(r[i]), Instances(r[j]));
    }
  }

  /** The host list is a permutation of the records in ascending address
      order; since addresses are dictionary keys, no two are equal. */
  lemma SortHostsSpec(vs: seq<HostRecord>)
    ensures multiset(SortHosts(vs)) == multiset(vs)
    ensures forall i, j :: 0 <= i < j < |SortHosts(vs)| ==> LexLe(SortHosts(vs)[i].ip, SortHosts(vs)[j].ip)
    ensures (forall i, j :: 0 <= i < j < |vs| ==> vs[i].ip != vs[j].ip) ==>
            forall i, j :: 0 <= i < j < |SortHosts(vs)| ==> SortHosts(vs)[i].ip != SortHosts(vs)[j].ip
  {
    LexLeIsTotalOrder();
    SortBySpec(vs, HostIp, LexLe);
    var r := SortHosts(vs);
    forall i, j | 0 <= i < j < |r| ensures LexLe(r[i].ip, r[j].ip) {
      assert LexLe(HostIp(r[i]), HostIp(r[j]));
    }
    if forall i, j :: 0 <= i < j < |vs| ==> vs[i].ip != vs[j].ip {
      forall i, j | 0 <= i < j < |vs| ensures HostIp(vs[i]) != HostIp(vs[j]) { }
      SortByDistinctKeys(vs, HostIp, LexLe);
      forall i, j | 0 <= i < j < |r| ensures r[i].ip != r[j].ip {
        assert HostIp(r[i]) != HostIp(r[j]);
      }
    }
  }
}
