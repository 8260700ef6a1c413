/** What one host contributes to a pull, and the fold of all contributions into the two status maps. */
module Health {
  import opened Common

  const HEALTHY: int := 0
  const UNKNOWN: int := 3

  datatype Host = Host(ip: string, role: string, hostname: string, mesosId: string, health: int, output: map<string, string>)

  datatype Unit = Unit(name: string, nodes: seq<Host>, health: int, title: string, timestamp: int, prettyName: string)

  datatype Response = Response(status: int, units: seq<Unit>, node: Host)

  /** A node as published: the host and the units it answered with. */
  datatype NodeView = NodeView(host: Host, units: seq<Unit>)

  // ---------------------------------------------------------------- one host

  datatype HealthValue = HealthValue(id: string, health: int, output: string, title: string, prettyName: string)

  datatype Body = Body(hostname: string, mesosId: string, units: seq<HealthValue>)

  /** Everything a pull of one host depends on: its port, its URL, and the answer with its decoded body. */
  datatype Attempt = Attempt(portKnown: bool, urlUsable: bool, status: int, failed: bool, body: Option<Body>)

  predicate Reachable(a: Attempt) {
    a.portKnown && a.urlUsable && a.status == 200 && !a.failed && a.body.Some?
  }

  /** The output texts of the first n units; a repeated id keeps the last text. */
  function Outputs(us: seq<HealthValue>, n: nat): map<string, string>
    requires n <= |us|
  {
    if n == 0 then map[] else Outputs(us, n - 1)[us[n - 1].id := us[n - 1].output]
  }

  /** The first unit health above h, or h. */
  function FirstAbove(us: seq<HealthValue>, k: nat, h: int): int
    requires k <= |us|
    decreases |us| - k
  {
    if k == |us| then h else if us[k].health > h then us[k].health else FirstAbove(us, k + 1, h)
  }

  function Updated(h: Host, b: Body): Host {
    Host(h.ip, h.role, b.hostname, b.mesosId, FirstAbove(b.units, 0, h.health), Outputs(b.units, |b.units|))
  }

  function UnitFrom(v: HealthValue, h: Host, now: int): Unit {
    Unit(v.id, [h], v.health, v.title, now, v.prettyName)
  }

  /** The response of a host: its units, all pointing back to the finished host, or none. */
  function ResponseOf(h: Host, a: Attempt, clock: nat -> int): Response {
    if Reachable(a) then
      var b, host := a.body.value, Updated(h, a.body.value);
      Response(a.status, seq(|b.units|, k requires 0 <= k < |b.units| => UnitFrom(b.units[k], host, clock(k))), host)
    else
      Response(if a.portKnown && a.urlUsable then a.status else 503, [], h.(health := UNKNOWN))
  }

  /** The output map of a host. The host is copied into every unit, but all copies share this map. */
  class OutputMap {
    var texts: map<string, string>

    constructor ()
      ensures texts == map[]
    {
      texts := map[];
    }
  }

  datatype Draft = Draft(value: HealthValue, now: int, host: Host, output: OutputMap)

  /** A unit as a reader sees it, through the shared map. */
  function Seen(d: Draft): Unit
    reads d.output
  {
    UnitFrom(d.value, d.host.(output := d.output.texts), d.now)
  }

  /** The units of a response as its readers see them. */
  method Published(drafts: seq<Draft>) returns (units: seq<Unit>)
    ensures |units| == |drafts| && forall m :: 0 <= m < |drafts| ==> units[m] == Seen(drafts[m])
  {
    units := [];
    for i := 0 to |drafts|
      invariant |units| == i && forall m :: 0 <= m < i ==> units[m] == Seen(drafts[m])
    {
      units := units + [Seen(drafts[i])];
    }
  }

  /** Every path of pullHostStatus delivers one response. */
  method PullHostStatus(h: Host, a: Attempt, clock: nat -> int) returns (r: Response)
    ensures r == ResponseOf(h, a, clock)
  {
    if !a.portKnown || !a.urlUsable {
      return Response(503, [], h.(health := UNKNOWN));
    }
    if a.status != 200 || a.failed || a.body.None? {
      return Response(a.status, [], h.(health := UNKNOWN));
    }
    var b := a.body.value;
    var host := h.(hostname := b.hostname, mesosId := b.mesosId);
    var output := new OutputMap();
    var k := 0;
    while k < |b.units|
      invariant k <= |b.units|
      invariant host == h.(hostname := b.hostname, mesosId := b.mesosId)
      invariant FirstAbove(b.units, 0, h.health) == FirstAbove(b.units, k, h.health)
    {
      if b.units[k].health > host.health {
        host := host.(health := b.units[k].health);
        break;
      }
      k := k + 1;
    }
    assert host.health == FirstAbove(b.units, 0, h.health);
    var drafts: seq<Draft> := [];
    for i := 0 to |b.units|
      invariant |drafts| == i && output.texts == Outputs(b.units, i)
      invariant forall m :: 0 <= m < i ==> drafts[m] == Draft(b.units[m], clock(m), host, output)
    {
      output.texts := output.texts[b.units[i].id := b.units[i].output];
      drafts := drafts + [Draft(b.units[i], clock(i), host, output)];
    }
    var published := Published(drafts);
    r := Response(a.status, published, host.(output := output.texts));
  }

  lemma {:induction false} FirstAboveHealthy(us: seq<HealthValue>, k: nat, h: int)
    requires k <= |us|
    ensures FirstAbove(us, k, h) == h <==> forall m :: k <= m < |us| ==> us[m].health <= h
    ensures FirstAbove(us, k, h) >= h
    decreases |us| - k
  {
    if k < |us| && us[k].health <= h {
      FirstAboveHealthy(us, k + 1, h);
    }
  }

  lemma UnitOfResponse(h: Host, a: Attempt, clock: nat -> int, k: nat)
    requires Reachable(a) && k < |a.body.value.units|
    ensures var r := ResponseOf(h, a, clock);
            |r.units| == |a.body.value.units| && r.units[k] == UnitFrom(a.body.value.units[k], r.node, clock(k))
  {
  }

  /** Whatever goes wrong, the host is reported with health 3 and no units, and is otherwise as it was. */
  lemma UnreachableHost(h: Host, a: Attempt, clock: nat -> int)
    requires !a.portKnown || !a.urlUsable || a.status != 200 || a.failed || a.body.None?
    ensures var r := ResponseOf(h, a, clock);
            && r.units == [] && r.node == h.(health := 3)
            && r.status == if a.portKnown && a.urlUsable then a.status else 503
  {
  }

  /** An answer with status 200, no error and a body is taken over field by field, unit by unit. */
  lemma ReachableHost(h: Host, a: Attempt, clock: nat -> int, k: nat)
    requires a.portKnown && a.urlUsable && a.status == 200 && !a.failed && a.body.Some? && k < |a.body.value.units|
    ensures var r, b, v := ResponseOf(h, a, clock), a.body.value, a.body.value.units[k];
            && r.status == 200 && |r.units| == |b.units|
            && r.node.ip == h.ip && r.node.role == h.role
            && r.node.hostname == b.hostname && r.node.mesosId == b.mesosId
            && r.units[k].name == v.id && r.units[k].health == v.health && r.units[k].title == v.title
            && r.units[k].prettyName == v.prettyName && r.units[k].timestamp == clock(k) && r.units[k].nodes == [r.node]
  {
    UnitOfResponse(h, a, clock, k);
  }

  /** A unit id has the text of the last unit with that id. */
  lemma {:induction false} LastOutput(us: seq<HealthValue>, n: nat, id: string)
    requires n <= |us|
    ensures id in Outputs(us, n) <==> exists k :: 0 <= k < n && us[k].id == id
    ensures forall k :: 0 <= k < n && us[k].id == id && (forall m :: k < m < n ==> us[m].id != id) ==>
              id in Outputs(us, n) && Outputs(us, n)[id] == us[k].output
  {
    if n > 0 {
      LastOutput(us, n - 1, id);
    }
  }

  /** A reachable host that starts healthy is reported healthy exactly when none of its units is worse. */
  lemma HostHealth(h: Host, a: Attempt, clock: nat -> int)
    requires Reachable(a) && h.health == HEALTHY
    ensures var r := ResponseOf(h, a, clock);
            r.node.health == HEALTHY <==> forall k :: 0 <= k < |r.units| ==> r.units[k].health <= HEALTHY
  {
    var us := a.body.value.units;
    FirstAboveHealthy(us, 0, HEALTHY);
    var r := ResponseOf(h, a, clock);
    forall k | 0 <= k < |us| ensures r.units[k].health == us[k].health {
      UnitOfResponse(h, a, clock, k);
    }
  }

  /** With distinct unit ids each unit keeps its own text in the shared map. */
  lemma {:induction false} OwnOutput(us: seq<HealthValue>, n: nat, k: nat)
    requires k < n <= |us| && forall i, j :: 0 <= i < j < |us| ==> us[i].id != us[j].id
    ensures us[k].id in Outputs(us, n) && Outputs(us, n)[us[k].id] == us[k].output
  {
    if k < n - 1 {
      OwnOutput(us, n - 1, k);
    }
  }

  /** w is the worst of h and the unit healths. */
  ghost predicate IsWorst(w: int, us: seq<HealthValue>, h: int) {
    && h <= w && (forall m :: 0 <= m < |us| ==> us[m].health <= w)
    && (w == h || exists m :: 0 <= m < |us| && us[m].health == w)
  }

  /** No unit is worse than the first one that is worse than h. */
  ghost predicate FirstIsWorst(us: seq<HealthValue>, h: int) {
    forall j, m :: 0 <= j < |us| && us[j].health > h && (forall i :: 0 <= i < j ==> us[i].health <= h) && 0 <= m < |us| ==>
      us[m].health <= us[j].health
  }

  /** The unit that decides: the first above h, if there is one. */
  lemma {:induction false} FirstAboveAt(us: seq<HealthValue>, k: nat, h: int) returns (j: nat)
    requires k <= |us| && exists m :: k <= m < |us| && us[m].health > h
    ensures k <= j < |us| && us[j].health > h && FirstAbove(us, k, h) == us[j].health
    ensures forall i :: k <= i < j ==> us[i].health <= h
    decreases |us| - k
  {
    if us[k].health > h {
      j := k;
    } else {
      j := FirstAboveAt(us, k + 1, h);
    }
  }

  /** A reachable host is reported with the worst health exactly when its first worse unit is its worst. */
  lemma HostHealthWorst(h: Host, a: Attempt, clock: nat -> int)
    requires Reachable(a)
    ensures IsWorst(ResponseOf(h, a, clock).node.health, a.body.value.units, h.health) <==>
            FirstIsWorst(a.body.value.units, h.health)
  {
    var us := a.body.value.units;
    FirstAboveHealthy(us, 0, h.health);
    if m :| 0 <= m < |us| && us[m].health > h.health {
      var j := FirstAboveAt(us, 0, h.health);
      assert forall x :: 0 <= x < |us| && us[x].health > h.health && (forall i :: 0 <= i < x ==> us[i].health <= h.health) ==> x == j;
    }
  }

  /** A healthy host that answers with units at 1 and then 3 is reported at 1. */
  lemma HostHealthNotWorst(h: Host, clock: nat -> int)
    requires h.health == HEALTHY
    ensures var us := [HealthValue("a", 1, "", "", ""), HealthValue("b", 3, "", "", "")];
            var r := ResponseOf(h, Attempt(true, true, 200, false, Some(Body("", "", us))), clock);
            r.node.health == 1 && r.units[1].health == 3 && !FirstIsWorst(us, h.health)
  {
    var us := [HealthValue("a", 1, "", "", ""), HealthValue("b", 3, "", "", "")];
    assert us[0].health == 1 && us[1].health == 3;
    UnitOfResponse(h, Attempt(true, true, 200, false, Some(Body("", "", us))), clock, 1);
  }

  // ---------------------------------------------------------------- the fold

  function AddUnit(m: map<string, Unit>, u: Unit): map<string, Unit> {
    if u.name in m then
      var v := m[u.name];
      m[u.name := v.(nodes := v.nodes + u.nodes, health := if u.health > v.health then u.health else v.health)]
    else m[u.name := u]
  }

  /** All unit reports, one after the other. */
  function Fold(us: seq<Unit>, n: nat): map<string, Unit>
    requires n <= |us|
  {
    if n == 0 then map[] else AddUnit(Fold(us, n - 1), us[n - 1])
  }

  function Occurrences(rs: seq<Response>, n: nat): seq<Unit>
    requires n <= |rs|
  {
    if n == 0 then [] else Occurrences(rs, n - 1) + rs[n - 1].units
  }

  function NodesOf(rs: seq<Response>, n: nat): map<string, NodeView>
    requires n <= |rs|
  {
    if n == 0 then map[]
    else NodesOf(rs, n - 1)[rs[n - 1].node.ip := NodeView(rs[n - 1].node, rs[n - 1].units)]
  }

  function UnitsOf(rs: seq<Response>): map<string, Unit> {
    Fold(Occurrences(rs, |rs|), |Occurrences(rs, |rs|)|)
  }

  lemma {:induction false} FoldPrefix(a: seq<Unit>, b: seq<Unit>, n: nat)
    requires n <= |a|
    ensures Fold(a + b, n) == Fold(a, n)
  {
    if n > 0 {
      FoldPrefix(a, b, n - 1);
    }
  }

  /** updateHealthStatus on the buffered responses. */
  method UpdateHealthStatus(rs: seq<Response>) returns (units: map<string, Unit>, nodes: map<string, NodeView>)
    ensures units == UnitsOf(rs) && nodes == NodesOf(rs, |rs|)
  {
    units, nodes := map[], map[];
    ghost var seen: seq<Unit> := [];
    for k := 0 to |rs|
      invariant seen == Occurrences(rs, k) && units == Fold(seen, |seen|)
      invariant nodes == NodesOf(rs, k)
    {
      var r := rs[k];
      nodes := nodes[r.node.ip := NodeView(r.node, r.units)];
      ghost var before := seen;
      for i := 0 to |r.units|
        invariant seen == before + r.units[..i] && units == Fold(seen, |seen|)
      {
        var u := r.units[i];
        FoldPrefix(seen, [u], |seen|);
        seen := seen + [u];
        if u.name in units {
          var v := units[u.name];
          v := v.(nodes := v.nodes + u.nodes);
          if u.health > v.health {
            v := v.(health := u.health);
          }
          units := units[u.name := v];
        } else {
          units := units[u.name := u];
        }
      }
    }
  }
}
