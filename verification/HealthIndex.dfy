/** The published status: order independence of the fold, the queries, and the agreement of the two maps. */
module HealthIndex {
  import opened Common
  import opened Sums
  import opened Health

  // ---------------------------------------------------------------- what the fold computes

  /** The hosts reported for a unit, in the order of the reports. */
  function HostsFor(us: seq<Unit>, n: nat, name: string): seq<Host>
    requires n <= |us|
  {
    if n == 0 then []
    else if us[n - 1].name == name then HostsFor(us, n - 1, name) + us[n - 1].nodes
    else HostsFor(us, n - 1, name)
  }

  /** Report k is the first one of the unit. */
  ghost predicate FirstNamed(us: seq<Unit>, k: nat, name: string) {
    k < |us| && us[k].name == name && forall i :: 0 <= i < k ==> us[i].name != name
  }

  /**
    A unit is present when some report names it; its health is the worst one, its hosts are all of them, and
    the rest is as in the first report.
   */
  lemma {:induction false} FoldMeans(us: seq<Unit>, n: nat, name: string)
    requires n <= |us|
    ensures name in Fold(us, n) <==> exists k :: 0 <= k < n && us[k].name == name
    ensures name in Fold(us, n) ==>
              var u := Fold(us, n)[name];
              && u.name == name
              && u.nodes == HostsFor(us, n, name)
              && (forall k :: 0 <= k < n && us[k].name == name ==> us[k].health <= u.health)
              && (exists k :: 0 <= k < n && us[k].name == name && us[k].health == u.health)
              && (exists k :: 0 <= k < n && FirstNamed(us, k, name) && us[k].title == u.title &&
                              us[k].timestamp == u.timestamp && us[k].prettyName == u.prettyName)
    ensures name !in Fold(us, n) ==> HostsFor(us, n, name) == []
  {
    if n > 0 {
      FoldMeans(us, n - 1, name);
      if us[n - 1].name == name && name !in Fold(us, n - 1) {
        assert [] + us[n - 1].nodes == us[n - 1].nodes;
      }
    }
  }

  // ---------------------------------------------------------------- order of arrival

  function HostWeight(name: string, g: Host -> nat): Unit -> nat {
    (u: Unit) => if u.name == name then Sum(u.nodes, g) else 0
  }

  lemma {:induction false} HostsForSum(us: seq<Unit>, n: nat, name: string, g: Host -> nat)
    requires n <= |us|
    ensures Sum(HostsFor(us, n, name), g) == Sum(us[..n], HostWeight(name, g))
  {
    if n > 0 {
      HostsForSum(us, n - 1, name, g);
      assert us[..n] == us[..n - 1] + [us[n - 1]];
      SumAppend(us[..n - 1], us[n - 1], HostWeight(name, g));
      SumConcat(HostsFor(us, n - 1, name), us[n - 1].nodes, g);
    }
  }

  function UnitWeight(g: Unit -> nat): Response -> nat {
    (r: Response) => Sum(r.units, g)
  }

  lemma {:induction false} OccurrencesSum(rs: seq<Response>, n: nat, g: Unit -> nat)
    requires n <= |rs|
    ensures Sum(Occurrences(rs, n), g) == Sum(rs[..n], UnitWeight(g))
  {
    if n > 0 {
      OccurrencesSum(rs, n - 1, g);
      assert rs[..n] == rs[..n - 1] + [rs[n - 1]];
      SumAppend(rs[..n - 1], rs[n - 1], UnitWeight(g));
      SumConcat(Occurrences(rs, n - 1), rs[n - 1].units, g);
    }
  }

  lemma OccurrencesPermuted(a: seq<Response>, b: seq<Response>)
    requires multiset(a) == multiset(b)
    ensures multiset(Occurrences(a, |a|)) == multiset(Occurrences(b, |b|))
  {
    assert a[..|a|] == a && b[..|b|] == b;
    forall u ensures Sum(Occurrences(a, |a|), Is(u)) == Sum(Occurrences(b, |b|), Is(u)) {
      OccurrencesSum(a, |a|, Is(u));
      OccurrencesSum(b, |b|, Is(u));
      SumPermuted(a, b, UnitWeight(Is(u)));
    }
    EqualSumsPermuted(Occurrences(a, |a|), Occurrences(b, |b|));
  }

  lemma SameMembers<T>(a: seq<T>, b: seq<T>, x: T)
    requires multiset(a) == multiset(b) && x in a
    ensures x in b
  {
    assert x in multiset(a);
  }

  lemma HostsForPermuted(a: seq<Unit>, b: seq<Unit>, name: string)
    requires multiset(a) == multiset(b)
    ensures multiset(HostsFor(a, |a|, name)) == multiset(HostsFor(b, |b|, name))
  {
    assert a[..|a|] == a && b[..|b|] == b;
    forall h ensures Sum(HostsFor(a, |a|, name), Is(h)) == Sum(HostsFor(b, |b|, name), Is(h)) {
      HostsForSum(a, |a|, name, Is(h));
      HostsForSum(b, |b|, name, Is(h));
      SumPermuted(a, b, HostWeight(name, Is(h)));
    }
    EqualSumsPermuted(HostsFor(a, |a|, name), HostsFor(b, |b|, name));
  }

  lemma FoldKeysPermuted(a: seq<Unit>, b: seq<Unit>, name: string)
    requires multiset(a) == multiset(b) && name in Fold(a, |a|)
    ensures name in Fold(b, |b|) && Fold(a, |a|)[name].health <= Fold(b, |b|)[name].health
  {
    FoldMeans(a, |a|, name);
    FoldMeans(b, |b|, name);
    var k :| 0 <= k < |a| && a[k].name == name && a[k].health == Fold(a, |a|)[name].health;
    SameMembers(a, b, a[k]);
    var m :| 0 <= m < |b| && b[m] == a[k];
  }

  /** Responses in another order give the same units, with the same health and the same hosts. */
  lemma OrderIndependent(a: seq<Response>, b: seq<Response>, name: string)
    requires multiset(a) == multiset(b)
    ensures name in UnitsOf(a) <==> name in UnitsOf(b)
    ensures name in UnitsOf(a) ==>
              && UnitsOf(a)[name].health == UnitsOf(b)[name].health
              && multiset(UnitsOf(a)[name].nodes) == multiset(UnitsOf(b)[name].nodes)
  {
    OccurrencesPermuted(a, b);
    var us, vs := Occurrences(a, |a|), Occurrences(b, |b|);
    FoldMeans(us, |us|, name);
    FoldMeans(vs, |vs|, name);
    HostsForPermuted(us, vs, name);
    if name in UnitsOf(a) {
      FoldKeysPermuted(us, vs, name);
    }
    if name in UnitsOf(b) {
      FoldKeysPermuted(vs, us, name);
    }
  }

  ghost predicate DistinctIPs(rs: seq<Response>) {
    forall j, k :: 0 <= j < k < |rs| ==> rs[j].node.ip != rs[k].node.ip
  }

  lemma {:induction false} NodesMean(rs: seq<Response>, n: nat, ip: string)
    requires n <= |rs| && DistinctIPs(rs)
    ensures ip in NodesOf(rs, n) <==> exists k :: 0 <= k < n && rs[k].node.ip == ip
    ensures forall k :: 0 <= k < n && rs[k].node.ip == ip ==>
              ip in NodesOf(rs, n) && NodesOf(rs, n)[ip] == NodeView(rs[k].node, rs[k].units)
  {
    if n > 0 {
      NodesMean(rs, n - 1, ip);
    }
  }

  lemma NodeKept(a: seq<Response>, b: seq<Response>, ip: string)
    requires multiset(a) == multiset(b) && DistinctIPs(a) && DistinctIPs(b) && ip in NodesOf(a, |a|)
    ensures ip in NodesOf(b, |b|) && NodesOf(a, |a|)[ip] == NodesOf(b, |b|)[ip]
  {
    NodesMean(a, |a|, ip);
    var k :| 0 <= k < |a| && a[k].node.ip == ip;
    SameMembers(a, b, a[k]);
    NodesMean(b, |b|, ip);
  }

  /** With distinct addresses the node map does not depend on the order at all. */
  lemma NodesOrderIndependent(a: seq<Response>, b: seq<Response>)
    requires multiset(a) == multiset(b) && DistinctIPs(a) && DistinctIPs(b)
    ensures NodesOf(a, |a|) == NodesOf(b, |b|)
  {
    forall ip | ip in NodesOf(a, |a|) ensures ip in NodesOf(b, |b|) && NodesOf(a, |a|)[ip] == NodesOf(b, |b|)[ip] {
      NodeKept(a, b, ip);
    }
    forall ip | ip in NodesOf(b, |b|) ensures ip in NodesOf(a, |a|) {
      NodeKept(b, a, ip);
    }
  }

  // ---------------------------------------------------------------- queries

  datatype NodeRow = NodeRow(ip: string, health: int, role: string)

  datatype UnitRow = UnitRow(id: string, prettyName: string, health: int, title: string)

  function FirstHost(hs: seq<Host>, k: nat, ip: string): Option<Host>
    requires k <= |hs|
    decreases |hs| - k
  {
    if k == |hs| then None else if hs[k].ip == ip then Some(hs[k]) else FirstHost(hs, k + 1, ip)
  }

  function FirstUnit(us: seq<Unit>, k: nat, name: string): Option<Unit>
    requires k <= |us|
    decreases |us| - k
  {
    if k == |us| then None else if us[k].name == name then Some(us[k]) else FirstUnit(us, k + 1, name)
  }

  /** A map read that yields the empty text for a missing key. */
  function Lookup(m: map<string, string>, key: string): (r: string)
    ensures if key in m then r == m[key] else r == ""
  {
    if key in m then m[key] else ""
  }

  class MonitoringResponse {
    var units: map<string, Unit>
    var nodes: map<string, NodeView>

    /** Both maps come from one and the same pull. */
    ghost predicate Consistent()
      reads this
    {
      exists rs :: Shows(rs)
    }

    ghost predicate Shows(rs: seq<Response>)
      reads this
    {
      && DistinctIPs(rs) && (forall k :: 0 <= k < |rs| ==> OwnUnits(rs[k]))
      && units == UnitsOf(rs) && nodes == NodesOf(rs, |rs|)
    }

    constructor ()
      ensures units == map[] && nodes == map[] && Consistent()
    {
      units, nodes := map[], map[];
      new;
      assert Shows([]);
    }

    /** updateHealthStatus with its publication: whatever was shown before, the new pull is shown, and it alone. */
    method PublishPull(rs: seq<Response>)
      modifies this
      ensures units == UnitsOf(rs) && nodes == NodesOf(rs, |rs|)
      ensures DistinctIPs(rs) && (forall k :: 0 <= k < |rs| ==> OwnUnits(rs[k])) ==> Shows(rs) && Consistent()
    {
      var us, ns := UpdateHealthStatus(rs);
      UpdateMonitoringResponse(us, ns);
      assert DistinctIPs(rs) && (forall k :: 0 <= k < |rs| ==> OwnUnits(rs[k])) ==> Shows(rs);
    }

    method UpdateMonitoringResponse(units: map<string, Unit>, nodes: map<string, NodeView>)
      modifies this
      ensures this.units == units && this.nodes == nodes
    {
      this.units, this.nodes := units, nodes;
    }

    method GetNodesForUnit(unitName: string) returns (r: Option<seq<NodeRow>>)
      ensures r.Some? <==> unitName in units
      ensures r.Some? ==>
                var hs := units[unitName].nodes;
                |r.value| == |hs| && forall k :: 0 <= k < |hs| ==> r.value[k] == NodeRow(hs[k].ip, hs[k].health, hs[k].role)
    {
      if unitName !in units {
        return None;
      }
      var hs := units[unitName].nodes;
      var rows: seq<NodeRow> := [];
      for k := 0 to |hs|
        invariant |rows| == k && forall i :: 0 <= i < k ==> rows[i] == NodeRow(hs[i].ip, hs[i].health, hs[i].role)
      {
        rows := rows + [NodeRow(hs[k].ip, hs[k].health, hs[k].role)];
      }
      r := Some(rows);
    }

    method GetNodeUnitsID(nodeIP: string) returns (r: Option<seq<UnitRow>>)
      ensures r.Some? <==> nodeIP in nodes
      ensures r.Some? ==>
                var us := nodes[nodeIP].units;
                |r.value| == |us| && forall k :: 0 <= k < |us| ==>
                  r.value[k] == UnitRow(us[k].name, us[k].prettyName, us[k].health, us[k].title)
    {
      if nodeIP !in nodes {
        return None;
      }
      var us := nodes[nodeIP].units;
      var rows: seq<UnitRow> := [];
      for k := 0 to |us|
        invariant |rows| == k && forall i :: 0 <= i < k ==>
                    rows[i] == UnitRow(us[i].name, us[i].prettyName, us[i].health, us[i].title)
      {
        rows := rows + [UnitRow(us[k].name, us[k].prettyName, us[k].health, us[k].title)];
      }
      r := Some(rows);
    }

    /** The node row and output text of a unit on a node, found from the unit. */
    method GetSpecificNodeForUnit(unitName: string, nodeIP: string) returns (r: Option<(NodeRow, string)>)
      ensures r == if unitName in units then
                     var h := FirstHost(units[unitName].nodes, 0, nodeIP);
                     if h.Some? then Some((NodeRow(h.value.ip, h.value.health, h.value.role), Lookup(h.value.output, unitName)))
                     else None
                   else None
    {
      if unitName !in units {
        return None;
      }
      var hs := units[unitName].nodes;
      for k := 0 to |hs|
        invariant FirstHost(hs, 0, nodeIP) == FirstHost(hs, k, nodeIP)
      {
        if hs[k].ip == nodeIP {
          return Some((NodeRow(hs[k].ip, hs[k].health, hs[k].role), Lookup(hs[k].output, unitName)));
        }
      }
      return None;
    }

    /** The unit row and output text of a unit on a node, found from the node. */
    method GetNodeUnitByNodeIDUnitID(nodeIP: string, unitID: string) returns (r: Option<(UnitRow, string)>)
      ensures r == if nodeIP in nodes then
                     var u := FirstUnit(nodes[nodeIP].units, 0, unitID);
                     if u.Some? then Some((UnitRow(u.value.name, u.value.prettyName, u.value.health, u.value.title),
                                           Lookup(nodes[nodeIP].host.output, u.value.name)))
                     else None
                   else None
    {
      if nodeIP !in nodes {
        return None;
      }
      var us := nodes[nodeIP].units;
      for k := 0 to |us|
        invariant FirstUnit(us, 0, unitID) == FirstUnit(us, k, unitID)
      {
        if us[k].name == unitID {
          return Some((UnitRow(us[k].name, us[k].prettyName, us[k].health, us[k].title),
                       Lookup(nodes[nodeIP].host.output, us[k].name)));
        }
      }
      return None;
    }
  }

  lemma {:induction false} FirstHostMeans(hs: seq<Host>, k: nat, ip: string)
    requires k <= |hs|
    ensures FirstHost(hs, k, ip).Some? <==> exists i :: k <= i < |hs| && hs[i].ip == ip
    ensures FirstHost(hs, k, ip).Some? ==> FirstHost(hs, k, ip).value in hs && FirstHost(hs, k, ip).value.ip == ip
    ensures forall i :: k <= i < |hs| && hs[i].ip == ip && (forall m :: k <= m < i ==> hs[m].ip != ip) ==>
              FirstHost(hs, k, ip) == Some(hs[i])
    decreases |hs| - k
  {
    if k < |hs| && hs[k].ip != ip {
      FirstHostMeans(hs, k + 1, ip);
    }
  }

  lemma {:induction false} FirstUnitMeans(us: seq<Unit>, k: nat, name: string)
    requires k <= |us|
    ensures FirstUnit(us, k, name).Some? <==> exists i :: k <= i < |us| && us[i].name == name
    ensures FirstUnit(us, k, name).Some? ==> FirstUnit(us, k, name).value.name == name
    decreases |us| - k
  {
    if k < |us| && us[k].name != name {
      FirstUnitMeans(us, k + 1, name);
    }
  }

  // ---------------------------------------------------------------- agreement

  /** What every response of a pull satisfies: each of its units names exactly its own host. */
  ghost predicate OwnUnits(r: Response) {
    forall k :: 0 <= k < |r.units| ==> r.units[k].nodes == [r.node]
  }

  lemma PulledOwnUnits(h: Host, a: Attempt, clock: nat -> int)
    ensures OwnUnits(ResponseOf(h, a, clock)) && ResponseOf(h, a, clock).node.ip == h.ip
  {
    if Reachable(a) {
      var r := ResponseOf(h, a, clock);
      forall k | 0 <= k < |r.units| ensures r.units[k].nodes == [r.node] {
        UnitOfResponse(h, a, clock, k);
      }
    }
  }

  /** The hosts listed for a unit are exactly the responding hosts that have it. */
  lemma {:induction false} ListedHosts(rs: seq<Response>, n: nat, name: string, h: Host)
    requires n <= |rs| && forall k :: 0 <= k < |rs| ==> OwnUnits(rs[k])
    ensures var us := Occurrences(rs, n);
            h in HostsFor(us, |us|, name) <==>
            exists k, i :: 0 <= k < n && 0 <= i < |rs[k].units| && rs[k].units[i].name == name && rs[k].node == h
  {
    if n > 0 {
      ListedHosts(rs, n - 1, name, h);
      HostsForConcat(Occurrences(rs, n - 1), rs[n - 1].units, |rs[n - 1].units|, name);
      OwnHosts(rs[n - 1], |rs[n - 1].units|, name, h);
    }
  }

  lemma {:induction false} HostsForConcat(a: seq<Unit>, b: seq<Unit>, n: nat, name: string)
    requires n <= |b|
    ensures HostsFor(a + b, |a| + n, name) == HostsFor(a, |a|, name) + HostsFor(b, n, name)
  {
    if n > 0 {
      HostsForConcat(a, b, n - 1, name);
      assert (a + b)[|a| + n - 1] == b[n - 1];
    } else {
      HostsForPrefix(a, b, |a|, name);
    }
  }

  lemma {:induction false} HostsForPrefix(a: seq<Unit>, b: seq<Unit>, n: nat, name: string)
    requires n <= |a|
    ensures HostsFor(a + b, n, name) == HostsFor(a, n, name)
  {
    if n > 0 {
      HostsForPrefix(a, b, n - 1, name);
    }
  }

  lemma {:induction false} OwnHosts(r: Response, n: nat, name: string, h: Host)
    requires n <= |r.units| && OwnUnits(r)
    ensures h in HostsFor(r.units, n, name) <==> h == r.node && exists i :: 0 <= i < n && r.units[i].name == name
  {
    if n > 0 {
      OwnHosts(r, n - 1, name, h);
    }
  }

  /**
    The two maps agree: an address is listed for a unit exactly when the unit is listed for the address,
    and both single lookups then give the same output text.
   */
  lemma ViewsAgree(rs: seq<Response>, name: string, ip: string)
    requires DistinctIPs(rs) && forall k :: 0 <= k < |rs| ==> OwnUnits(rs[k])
    ensures var units, nodes := UnitsOf(rs), NodesOf(rs, |rs|);
            var h := if name in units then FirstHost(units[name].nodes, 0, ip) else None;
            var u := if ip in nodes then FirstUnit(nodes[ip].units, 0, name) else None;
            && (h.Some? <==> u.Some?)
            && (h.Some? ==> h.value == nodes[ip].host && u.value.name == name)
  {
    var units, nodes := UnitsOf(rs), NodesOf(rs, |rs|);
    var us := Occurrences(rs, |rs|);
    FoldMeans(us, |us|, name);
    NodesMean(rs, |rs|, ip);
    var hs := HostsFor(us, |us|, name);
    FirstHostMeans(hs, 0, ip);
    if name in units && FirstHost(hs, 0, ip).Some? {
      var h := FirstHost(hs, 0, ip).value;
      ListedHosts(rs, |rs|, name, h);
      var k, i :| 0 <= k < |rs| && 0 <= i < |rs[k].units| && rs[k].units[i].name == name && rs[k].node == h;
      FirstUnitMeans(rs[k].units, 0, name);
    }
    if ip in nodes {
      var k :| 0 <= k < |rs| && rs[k].node.ip == ip;
      FirstUnitMeans(rs[k].units, 0, name);
      ListedHosts(rs, |rs|, name, rs[k].node);
      if FirstUnit(rs[k].units, 0, name).Some? {
        var i :| 0 <= i < |rs[k].units| && rs[k].units[i].name == name;
        assert rs[k].node in hs;
      }
    }
  }

  /**
    A round from its pulls to its queries: when host j answered with distinct unit ids, looking up its
    k-th unit from either side finds that host, that unit, and the very text the host sent for it.
   */
  lemma PulledTextFound(hosts: seq<Host>, answers: seq<Attempt>, clocks: nat -> nat -> int, rs: seq<Response>, j: nat, k: nat)
    requires |answers| == |hosts| && forall i, m :: 0 <= i < m < |hosts| ==> hosts[i].ip != hosts[m].ip
    requires multiset(rs) == multiset(Pulled(hosts, answers, clocks))
    requires j < |hosts| && Reachable(answers[j]) && k < |answers[j].body.value.units|
    requires var us := answers[j].body.value.units; forall i, m :: 0 <= i < m < |us| ==> us[i].id != us[m].id
    ensures var v := answers[j].body.value.units[k];
            var h := if v.id in UnitsOf(rs) then FirstHost(UnitsOf(rs)[v.id].nodes, 0, hosts[j].ip) else None;
            var nodes := NodesOf(rs, |rs|);
            && h.Some? && Lookup(h.value.output, v.id) == v.output
            && hosts[j].ip in nodes && Lookup(nodes[hosts[j].ip].host.output, v.id) == v.output
            && FirstUnit(nodes[hosts[j].ip].units, 0, v.id) ==
                 Some(Unit(v.id, [h.value], v.health, v.title, clocks(j)(k), v.prettyName))
            && h.value.ip == hosts[j].ip && h.value.role == hosts[j].role
            && h.value.hostname == answers[j].body.value.hostname && h.value.mesosId == answers[j].body.value.mesosId
  {
    var us, r := answers[j].body.value.units, ResponseOf(hosts[j], answers[j], clocks(j));
    PulledShape(hosts, answers, clocks, rs);
    assert Pulled(hosts, answers, clocks)[j] == r;
    SameMembers(Pulled(hosts, answers, clocks), rs, r);
    var x :| 0 <= x < |rs| && rs[x] == r;
    NodesMean(rs, |rs|, hosts[j].ip);
    OwnOutput(us, |us|, k);
    UnitAt(hosts[j], answers[j], clocks(j), k);
    ViewsAgree(rs, us[k].id, hosts[j].ip);
  }

  /** A host that could not be pulled is published with health 3 and no units, in whatever order the responses arrive. */
  lemma UnreachableShown(hosts: seq<Host>, answers: seq<Attempt>, clocks: nat -> nat -> int, rs: seq<Response>, j: nat)
    requires |answers| == |hosts| && forall i, m :: 0 <= i < m < |hosts| ==> hosts[i].ip != hosts[m].ip
    requires multiset(rs) == multiset(Pulled(hosts, answers, clocks)) && j < |hosts|
    requires var a := answers[j]; !a.portKnown || !a.urlUsable || a.status != 200 || a.failed || a.body.None?
    ensures var nodes := NodesOf(rs, |rs|);
            hosts[j].ip in nodes && nodes[hosts[j].ip] == NodeView(hosts[j].(health := 3), [])
  {
    var r := ResponseOf(hosts[j], answers[j], clocks(j));
    UnreachableHost(hosts[j], answers[j], clocks(j));
    PulledShape(hosts, answers, clocks, rs);
    assert Pulled(hosts, answers, clocks)[j] == r;
    SameMembers(Pulled(hosts, answers, clocks), rs, r);
    var x :| 0 <= x < |rs| && rs[x] == r;
    NodesMean(rs, |rs|, hosts[j].ip);
  }

  /** The responses of a round, in the order of the hosts. */
  function Pulled(hosts: seq<Host>, answers: seq<Attempt>, clocks: nat -> nat -> int): seq<Response>
    requires |answers| == |hosts|
  {
    seq(|hosts|, i requires 0 <= i < |hosts| => ResponseOf(hosts[i], answers[i], clocks(i)))
  }

  /** In whatever order they arrive, the responses are of distinct hosts and own their units. */
  lemma PulledShape(hosts: seq<Host>, answers: seq<Attempt>, clocks: nat -> nat -> int, rs: seq<Response>)
    requires |answers| == |hosts| && forall i, m :: 0 <= i < m < |hosts| ==> hosts[i].ip != hosts[m].ip
    requires multiset(rs) == multiset(Pulled(hosts, answers, clocks))
    ensures DistinctIPs(rs) && forall k :: 0 <= k < |rs| ==> OwnUnits(rs[k])
  {
    var ps := Pulled(hosts, answers, clocks);
    forall i | 0 <= i < |hosts| ensures OwnUnits(ps[i]) && ps[i].node.ip == hosts[i].ip {
      PulledOwnUnits(hosts[i], answers[i], clocks(i));
    }
    forall k | 0 <= k < |rs| ensures OwnUnits(rs[k]) {
      SameMembers(rs, ps, rs[k]);
    }
    DistinctPermuted(ps, rs);
  }

  function At(ip: string): Response -> nat { (r: Response) => if r.node.ip == ip then 1 else 0 }

  lemma {:induction false} AtMostOne(rs: seq<Response>, ip: string)
    requires DistinctIPs(rs)
    ensures Sum(rs, At(ip)) <= 1
    ensures Sum(rs, At(ip)) == 1 ==> exists k :: 0 <= k < |rs| && rs[k].node.ip == ip
  {
    if rs != [] {
      AtMostOne(rs[1..], ip);
      assert forall k :: 0 <= k < |rs| - 1 ==> rs[1..][k] == rs[k + 1];
    }
  }

  lemma DistinctPermuted(a: seq<Response>, b: seq<Response>)
    requires multiset(a) == multiset(b) && DistinctIPs(a)
    ensures DistinctIPs(b)
  {
    forall j, k | 0 <= j < k < |b| ensures b[j].node.ip != b[k].node.ip {
      var ip := b[j].node.ip;
      AtMostOne(a, ip);
      SumPermuted(a, b, At(ip));
      SumRemove(b, k, At(ip));
      SumRemove(b[..k] + b[k + 1..], j, At(ip));
    }
  }

  lemma UnitAt(h: Host, a: Attempt, clock: nat -> int, k: nat)
    requires Reachable(a) && k < |a.body.value.units|
    requires var us := a.body.value.units; forall i, m :: 0 <= i < m < |us| ==> us[i].id != us[m].id
    ensures var r, v := ResponseOf(h, a, clock), a.body.value.units[k];
            FirstUnit(r.units, 0, v.id) == Some(UnitFrom(v, r.node, clock(k)))
  {
    var r, us := ResponseOf(h, a, clock), a.body.value.units;
    forall i: nat | i < |us| ensures |r.units| == |us| && r.units[i] == UnitFrom(us[i], r.node, clock(i)) {
      UnitOfResponse(h, a, clock, i);
    }
    FoundAt(r.units, 0, k);
  }

  lemma {:induction false} FoundAt(us: seq<Unit>, from: nat, k: nat)
    requires from <= k < |us| && forall i :: from <= i < k ==> us[i].name != us[k].name
    ensures FirstUnit(us, from, us[k].name) == Some(us[k])
    decreases k - from
  {
    if from < k {
      FoundAt(us, from + 1, k);
    }
  }

  /** At any time, whatever was published, the two single lookups find a pair together and with the same text. */
  lemma LookupsAgree(mr: MonitoringResponse, name: string, ip: string)
    requires mr.Consistent()
    ensures var h := if name in mr.units then FirstHost(mr.units[name].nodes, 0, ip) else None;
            var u := if ip in mr.nodes then FirstUnit(mr.nodes[ip].units, 0, name) else None;
            && (h.Some? <==> u.Some?)
            && (h.Some? ==> Lookup(h.value.output, name) == Lookup(mr.nodes[ip].host.output, u.value.name))
  {
    var rs :| mr.Shows(rs);
    ViewsAgree(rs, name, ip);
  }
}
