/** The result of a whole cluster-bundle run, for every interleaving. */
module ClusterBundle {
  import opened Common
  import opened Sums
  import opened Coordinator
  import opened CoordinatorProgress
  import opened Collection
  import opened Paths

  // ---------------------------------------------------------------- statuses are well formed

  ghost predicate SentBy(c: Request, w: Worker) {
    w.phase.Sending? ==> w.phase.status.id == c.id
  }

  /** Every status in flight or received carries the id of the request. */
  ghost predicate Ids(c: Request, s: State) {
    && (forall k :: 0 <= k < |s.workers| ==> SentBy(c, s.workers[k]))
    && (forall k :: 0 <= k < |s.statuses| ==> s.statuses[k].id == c.id)
    && (forall k :: 0 <= k < |s.received| ==> s.received[k].status.id == c.id)
  }

  lemma {:induction false} RunKeepsIds(c: Request, s: State, es: seq<Event>)
    requires Ids(c, s) && Run(c, s, es)
    ensures Ids(c, After(c, s, es))
    decreases |es|
  {
    if es != [] {
      StepKeepsIds(c, s, es[0]);
      RunKeepsIds(c, Next(c, s, es[0]), es[1..]);
    }
  }

  lemma StepKeepsIds(c: Request, s: State, e: Event)
    requires Ids(c, s) && Enabled(c, s, e)
    ensures Ids(c, Next(c, s, e))
  {
    WorkersKeepIds(c, s, e);
    if e.Send? {
      assert SentBy(c, s.workers[e.w]);
    }
  }

  lemma WorkersKeepIds(c: Request, s: State, e: Event)
    requires Ids(c, s) && Enabled(c, s, e)
    ensures var t := Next(c, s, e); forall k :: 0 <= k < |t.workers| ==> SentBy(c, t.workers[k])
  {
  }

  function From(n: nat): nat -> bool { i => i >= n }

  lemma {:induction false} NoneBeyond(n: nat, m: nat)
    requires m <= n
    ensures Sum(Range(m), NodeToken(From(n))) == 0
  {
    if m > 0 {
      NoneBeyond(n, m - 1);
      SumAppend<nat>(Range(m - 1), m - 1, NodeToken(From(n)));
    }
  }

  /** No run produces a done status of a node outside the request. */
  lemma ReceivedKnown(c: Request, es: seq<Event>)
    requires Run(c, Init(c), es)
    ensures AllKnown(c, After(c, Init(c), es).received)
  {
    var s, n := After(c, Init(c), es), |c.nodes|;
    RunKeepsIds(c, Init(c), es);
    NoneBeyond(n, n);
    IdleHoldNoToken(Init(c).workers, From(n));
    RunConserves(c, Init(c), es, From(n));
    forall k | 0 <= k < |s.received| ensures Known(c, s.received[k]) {
      SumRemove(s.received, k, ArrivalToken(From(n)));
    }
  }

  // ---------------------------------------------------------------- file names

  /** What the handler's node list provides: printed addresses, all different, and simple role names. */
  ghost predicate Named(c: Request) {
    && (forall i :: 0 <= i < |c.nodes| ==> '_' !in c.nodes[i].ip && SLASH !in c.nodes[i].ip && SLASH !in c.nodes[i].role)
    && (forall i, j :: 0 <= i < j < |c.nodes| ==> c.nodes[i].ip != c.nodes[j].ip)
  }

  lemma FilenamePlain(n: Node)
    requires SLASH !in n.ip && SLASH !in n.role
    ensures Plain(NodeBundleFilename(n))
  {
    var f := NodeBundleFilename(n);
    assert f[|n.ip|] == '_';
    assert ".zip"[0] == '.' && ".zip"[1] == 'z' && ".zip"[2] == 'i' && ".zip"[3] == 'p';
  }

  lemma FilenameAddress(m: Node, n: Node)
    requires '_' !in m.ip && '_' !in n.ip && NodeBundleFilename(m) == NodeBundleFilename(n)
    ensures m.ip == n.ip
  {
    var f := NodeBundleFilename(m);
    assert forall k :: 0 <= k < |m.ip| ==> f[k] == m.ip[k] && m.ip[k] in m.ip;
    assert forall k :: 0 <= k < |n.ip| ==> f[k] == n.ip[k] && n.ip[k] in n.ip;
    assert f[|m.ip|] == '_' && f[|n.ip|] == '_';
  }

  lemma FilenameRole(m: Node, n: Node)
    requires m.ip == n.ip && NodeBundleFilename(m) == NodeBundleFilename(n)
    ensures m.role == n.role
  {
    var f := NodeBundleFilename(m);
    assert f[|m.ip| + 1..|f| - 4] == m.role;
    assert f[|n.ip| + 1..|f| - 4] == n.role;
  }

  /** In an absolute work directory of plain components the file of a node is named by its address and role. */
  lemma DownloadPath(c: Request, i: nat, cs: seq<string>)
    requires Named(c) && i < |c.nodes| && c.workDir == [SLASH] + JoinSlash(cs)
    requires cs != [] && forall k :: 0 <= k < |cs| ==> Plain(cs[k])
    ensures BundlePath(c, i) == c.workDir + "/" + c.nodes[i].ip + "_" + c.nodes[i].role + ".zip"
  {
    var n := c.nodes[i];
    FilenamePlain(n);
    JoinAbsolute(cs, NodeBundleFilename(n));
    Flatten(c.workDir, [SLASH], n.ip, "_", n.role, ".zip");
    assert [SLASH] == "/";
  }

  lemma Flatten(a: string, b: string, x: string, y: string, z: string, w: string)
    ensures a + b + (x + y + z + w) == a + b + x + y + z + w
  {
  }

  /** Requests that share a work directory download a node to the same file, whatever their ids. */
  lemma SharedPath(c: Request, i: nat, d: Request, j: nat)
    requires Named(c) && Named(d) && i < |c.nodes| && j < |d.nodes| && c.workDir == d.workDir
    ensures BundlePath(c, i) == BundlePath(d, j) <==> c.nodes[i].ip == d.nodes[j].ip && c.nodes[i].role == d.nodes[j].role
  {
    FilenamePlain(c.nodes[i]);
    FilenamePlain(d.nodes[j]);
    BaseJoin(c.workDir, NodeBundleFilename(c.nodes[i]));
    BaseJoin(d.workDir, NodeBundleFilename(d.nodes[j]));
    if BundlePath(c, i) == BundlePath(d, j) {
      FilenameAddress(c.nodes[i], d.nodes[j]);
      FilenameRole(c.nodes[i], d.nodes[j]);
    }
  }

  /** Different nodes are downloaded to different files. */
  lemma PathsApart(c: Request, i: nat, j: nat)
    requires Named(c) && i < |c.nodes| && j < |c.nodes| && BundlePath(c, i) == BundlePath(c, j)
    ensures i == j
  {
    FilenamePlain(c.nodes[i]);
    FilenamePlain(c.nodes[j]);
    BaseJoin(c.workDir, NodeBundleFilename(c.nodes[i]));
    BaseJoin(c.workDir, NodeBundleFilename(c.nodes[j]));
    FilenameAddress(c.nodes[i], c.nodes[j]);
    if i < j {
    } else if j < i {
    }
  }

  // ---------------------------------------------------------------- results

  /** The run has reached the end of CollectBundle's loop. */
  ghost predicate Finished(c: Request, es: seq<Event>) {
    Run(c, Init(c), es) && DoneCount(After(c, Init(c), es).received) == |c.nodes|
  }

  ghost function Log(c: Request, es: seq<Event>): seq<Arrival>
    requires Run(c, Init(c), es)
  {
    After(c, Init(c), es).received
  }

  /** The one done status of node i. */
  lemma DoneOf(c: Request, es: seq<Event>, i: nat) returns (k: nat)
    requires Finished(c, es) && i < |c.nodes|
    ensures k < |Log(c, es)| && Log(c, es)[k].status.done && Log(c, es)[k].status.node == i
    ensures forall j :: 0 <= j < |Log(c, es)| && Log(c, es)[j].status.done && Log(c, es)[j].status.node == i ==> j == k
  {
    var log := Log(c, es);
    DoneExactlyOnce(c, es, i);
    k := SumFind(log, ArrivalToken(Only(i)));
    forall j | 0 <= j < |log| && log[j].status.done && log[j].status.node == i ensures j == k {
      if j < k {
        OnceOnly(log, ArrivalToken(Only(i)), j, k);
      } else if k < j {
        OnceOnly(log, ArrivalToken(Only(i)), k, j);
      }
    }
  }

  /**
    Node i in the result of any finished run, in terms of its one done status: the report holds its
    verdict, its file is merged exactly when that verdict is Done, and it was asked for a file exactly
    when the status carried no error.
   */
  lemma NodeOutcome(c: Request, es: seq<Event>, i: nat) returns (k: nat)
    requires Finished(c, es) && Named(c) && i < |c.nodes|
    ensures AllKnown(c, Log(c, es))
    ensures k < |Log(c, es)| && Log(c, es)[k].status.done && Log(c, es)[k].status.node == i
    ensures var a, o, ip := Log(c, es)[k], Outcome(c, Log(c, es)), c.nodes[i].ip;
            && ip in o.report && o.report[ip] == Verdict(a)
            && (o.report[ip].status == Done <==> BundlePath(c, i) in o.paths)
            && (o.report[ip].status != Done ==> o.report[ip].status == Failed)
            && (i in o.fetched <==> a.status.err.None?)
  {
    var log := Log(c, es);
    ReceivedKnown(c, es);
    k := DoneOf(c, es, i);
    ReportAt(c, log, k);
    OutcomeLists(c, log);
    Picked(log, IsAttempted, i);
    Picked(log, IsDownloaded, i);
    var ns := Pick(log, IsDownloaded);
    assert BundlePath(c, i) in PathsOf(c, ns) <==> i in ns by {
      if BundlePath(c, i) in PathsOf(c, ns) {
        var m :| 0 <= m < |ns| && BundlePath(c, ns[m]) == BundlePath(c, i);
        PathsApart(c, i, ns[m]);
      }
      if i in ns {
        var m :| 0 <= m < |ns| && ns[m] == i;
        assert PathsOf(c, ns)[m] == BundlePath(c, i);
      }
    }
  }

  function CleanupWeight(c: Request, y: BundleToDelete): nat -> nat {
    (n: nat) => if n < |c.nodes| && BundleToDelete(c.nodes[n].baseURL, c.id) == y then 1 else 0
  }

  lemma {:induction false} CleanupSum(c: Request, ns: seq<nat>, y: BundleToDelete)
    requires Within(c, ns)
    ensures Sum(Cleanup(c, ns), Is(y)) == Sum(ns, CleanupWeight(c, y))
  {
    if ns != [] {
      CleanupSum(c, ns[1..], y);
      assert Cleanup(c, ns)[1..] == Cleanup(c, ns[1..]);
    }
  }

  lemma CleanupPermuted(c: Request, a: seq<nat>, b: seq<nat>)
    requires Within(c, a) && Within(c, b) && multiset(a) == multiset(b)
    ensures multiset(Cleanup(c, a)) == multiset(Cleanup(c, b))
  {
    forall y ensures Sum(Cleanup(c, a), Is(y)) == Sum(Cleanup(c, b), Is(y)) {
      CleanupSum(c, a, y);
      CleanupSum(c, b, y);
      SumPermuted(a, b, CleanupWeight(c, y));
    }
    EqualSumsPermuted(Cleanup(c, a), Cleanup(c, b));
  }

  /**
    The whole result of any finished run: one report entry per node, no file merged twice, and a
    cleanup list that names every node's remote bundle exactly once.
   */
  lemma RunOutcome(c: Request, es: seq<Event>)
    requires Finished(c, es) && Named(c)
    ensures AllKnown(c, Log(c, es))
    ensures var o := Outcome(c, Log(c, es));
            && o.report.Keys == (set i | 0 <= i < |c.nodes| :: c.nodes[i].ip)
            && (forall j, k :: 0 <= j < k < |o.paths| ==> o.paths[j] != o.paths[k])
            && multiset(o.toDelete) ==
               multiset(seq(|c.nodes|, i requires 0 <= i < |c.nodes| => BundleToDelete(c.nodes[i].baseURL, c.id)))
  {
    var log := Log(c, es);
    ReceivedKnown(c, es);
    ReportKeys(c, log);
    forall i | 0 <= i < |c.nodes| ensures c.nodes[i].ip in Outcome(c, log).report {
      var k := NodeOutcome(c, es, i);
    }
    OutcomeLists(c, log);
    PathsDistinct(c, es);
    DoneNodesPermuted(c, es);
    CleanupPermuted(c, Pick(log, IsDone), Range(|c.nodes|));
    assert Cleanup(c, Range(|c.nodes|)) ==
      seq(|c.nodes|, i requires 0 <= i < |c.nodes| => BundleToDelete(c.nodes[i].baseURL, c.id));
  }

  lemma DoneNodesPermuted(c: Request, es: seq<Event>)
    requires Finished(c, es)
    ensures multiset(Pick(Log(c, es), IsDone)) == multiset(Range(|c.nodes|))
  {
    var log := Log(c, es);
    ReceivedKnown(c, es);
    OutcomeLists(c, log);
    forall i: nat ensures Sum(Pick(log, IsDone), Is(i)) == Sum(Range(|c.nodes|), Is(i)) {
      PickedDone(log, i);
      RangeTokens(|c.nodes|, i);
      InitialTokens(c, es, i);
      AllCounted(After(c, Init(c), es), i);
      SumBound(Range(|c.nodes|), Is(i), NodeToken(Only(i)));
      SumBound(Range(|c.nodes|), NodeToken(Only(i)), Is(i));
    }
    EqualSumsPermuted<nat>(Pick(log, IsDone), Range(|c.nodes|));
  }

  lemma PathsDistinct(c: Request, es: seq<Event>)
    requires Finished(c, es) && Named(c)
    ensures AllKnown(c, Log(c, es))
    ensures var ps := Outcome(c, Log(c, es)).paths; forall j, k :: 0 <= j < k < |ps| ==> ps[j] != ps[k]
  {
    var log := Log(c, es);
    ReceivedKnown(c, es);
    OutcomeLists(c, log);
    var ns := Pick(log, IsDownloaded);
    forall j, k | 0 <= j < k < |ns| ensures BundlePath(c, ns[j]) != BundlePath(c, ns[k]) {
      if BundlePath(c, ns[j]) == BundlePath(c, ns[k]) {
        PathsApart(c, ns[j], ns[k]);
        OnceOnly(ns, Is(ns[j]), j, k);
        PickedDone(log, ns[j]);
        DoneExactlyOnce(c, es, ns[j]);
      }
    }
  }
}
