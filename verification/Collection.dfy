/** The collector of node bundles: its receive loop, and what it holds once every node is done. */
module Collection {
  import opened Common
  import opened Sums
  import opened Coordinator
  import opened Paths

  datatype NodeReport = NodeReport(status: Status, err: Option<Cause>)

  datatype BundleToDelete = BundleToDelete(baseURL: string, localBundleID: string)

  /** The report, the downloaded files to merge, the remote bundles to clean up and the nodes asked for a file. */
  datatype Collected = Collected(
    report: map<string, NodeReport>, paths: seq<string>, toDelete: seq<BundleToDelete>, fetched: seq<nat>)

  function NodeBundleFilename(n: Node): string {
    n.ip + "_" + n.role + ".zip"
  }

  function BundlePath(c: Request, i: nat): string
    requires i < |c.nodes|
  {
    Join(c.workDir, NodeBundleFilename(c.nodes[i]))
  }

  // ---------------------------------------------------------------- specification

  /** Done statuses are of known nodes and carry the request's id. */
  predicate Known(c: Request, a: Arrival) {
    a.status.done ==> a.status.node < |c.nodes| && a.status.id == c.id
  }

  ghost predicate AllKnown(c: Request, log: seq<Arrival>) {
    forall k :: 0 <= k < |log| ==> Known(c, log[k])
  }

  predicate IsDone(a: Arrival) { a.status.done }

  predicate IsAttempted(a: Arrival) { a.status.done && a.status.err.None? }

  predicate IsDownloaded(a: Arrival) { IsAttempted(a) && a.fetch.err.None? }

  function Verdict(a: Arrival): NodeReport {
    if a.status.err.Some? then NodeReport(Failed, a.status.err)
    else if a.fetch.err.Some? then NodeReport(Failed, Some(CouldNotDownload(a.fetch.err.value)))
    else NodeReport(Done, None)
  }

  /** What one more arrival adds. */
  function Extended(c: Request, o: Collected, a: Arrival): Collected
    requires Known(c, a)
  {
    if !a.status.done then o
    else
      var n := a.status.node;
      Collected(o.report[c.nodes[n].ip := Verdict(a)],
                o.paths + (if IsDownloaded(a) then [BundlePath(c, n)] else []),
                o.toDelete + [BundleToDelete(c.nodes[n].baseURL, c.id)],
                o.fetched + (if IsAttempted(a) then [n] else []))
  }

  ghost function Outcome(c: Request, log: seq<Arrival>): Collected
    requires AllKnown(c, log)
  {
    if log == [] then Collected(map[], [], [], [])
    else Extended(c, Outcome(c, log[..|log| - 1]), log[|log| - 1])
  }

  lemma TakeOne(c: Request, log: seq<Arrival>, k: nat)
    requires k < |log| && AllKnown(c, log)
    ensures DoneCount(log[..k + 1]) == DoneCount(log[..k]) + if log[k].status.done then 1 else 0
    ensures Outcome(c, log[..k + 1]) == Extended(c, Outcome(c, log[..k]), log[k])
  {
    assert log[..k + 1] == log[..k] + [log[k]];
    assert log[..k + 1][..k] == log[..k];
    SumAppend(log[..k], log[k], ArrivalToken(All()));
  }

  /**
    CollectBundle up to the merge. `arrivals` is what the status channel delivers; the loop takes
    elements until it has counted numBundles done statuses.
   */
  method CollectBundle(c: Request, numBundles: nat, arrivals: seq<Arrival>) returns (r: Collected, used: nat)
    requires AllKnown(c, arrivals)
    requires DoneCount(arrivals) >= numBundles
    ensures used <= |arrivals| && DoneCount(arrivals[..used]) == numBundles
    ensures used > 0 ==> arrivals[used - 1].status.done
    ensures r == Outcome(c, arrivals[..used])
  {
    var bundlePaths: seq<string> := [];
    var report: map<string, NodeReport> := map[];
    var bundlesToDelete := new BundleToDelete[numBundles](_ => BundleToDelete("", ""));
    var fetched: seq<nat> := [];
    var finishedBundles := 0;
    used := 0;
    ghost var o := Outcome(c, arrivals[..0]);
    while finishedBundles < numBundles
      invariant used <= |arrivals| && finishedBundles <= numBundles
      invariant DoneCount(arrivals[..used]) == finishedBundles
      invariant used > 0 && finishedBundles == numBundles ==> arrivals[used - 1].status.done
      invariant o == Outcome(c, arrivals[..used])
      invariant report == o.report && bundlePaths == o.paths && fetched == o.fetched
      invariant bundlesToDelete[..finishedBundles] == o.toDelete
      decreases |arrivals| - used
    {
      assert arrivals[..|arrivals|] == arrivals;
      var a := arrivals[used];
      var s := a.status;
      TakeOne(c, arrivals, used);
      o := Extended(c, o, a);
      used := used + 1;
      if !s.done {
        continue;
      }
      bundlesToDelete[finishedBundles] := BundleToDelete(c.nodes[s.node].baseURL, s.id);
      finishedBundles := finishedBundles + 1;
      if s.err.Some? {
        report := report[c.nodes[s.node].ip := NodeReport(Failed, s.err)];
        continue;
      }
      var bundlePath := BundlePath(c, s.node);
      fetched := fetched + [s.node];
      if a.fetch.err.Some? {
        report := report[c.nodes[s.node].ip := NodeReport(Failed, Some(CouldNotDownload(a.fetch.err.value)))];
        continue;
      }
      report := report[c.nodes[s.node].ip := NodeReport(Done, None)];
      bundlePaths := bundlePaths + [bundlePath];
    }
    r := Collected(report, bundlePaths, bundlesToDelete[..], fetched);
  }

  /** Arrivals after the last done status change nothing, so the loop's result is that of the whole log. */
  lemma {:induction false} UndoneTail(c: Request, log: seq<Arrival>, used: nat)
    requires used <= |log| && AllKnown(c, log) && DoneCount(log[..used]) == DoneCount(log)
    ensures Outcome(c, log[..used]) == Outcome(c, log)
    decreases |log| - used
  {
    if used < |log| {
      TakeOne(c, log, used);
      assert log == log[..used + 1] + log[used + 1..];
      SumConcat(log[..used + 1], log[used + 1..], ArrivalToken(All()));
      UndoneTail(c, log, used + 1);
    } else {
      assert log[..used] == log;
    }
  }

  // ---------------------------------------------------------------- lists of the outcome

  /** The nodes of the arrivals that satisfy p, in order of arrival. */
  function Pick(log: seq<Arrival>, p: Arrival -> bool): seq<nat> {
    if log == [] then []
    else
      var a := log[|log| - 1];
      Pick(log[..|log| - 1], p) + (if p(a) then [a.status.node] else [])
  }

  ghost predicate Within(c: Request, ns: seq<nat>) {
    forall k :: 0 <= k < |ns| ==> ns[k] < |c.nodes|
  }

  ghost function PathsOf(c: Request, ns: seq<nat>): seq<string>
    requires Within(c, ns)
  {
    seq(|ns|, k requires 0 <= k < |ns| => BundlePath(c, ns[k]))
  }

  ghost function Cleanup(c: Request, ns: seq<nat>): seq<BundleToDelete>
    requires Within(c, ns)
  {
    seq(|ns|, k requires 0 <= k < |ns| => BundleToDelete(c.nodes[ns[k]].baseURL, c.id))
  }

  lemma {:induction false} OutcomeLists(c: Request, log: seq<Arrival>)
    requires AllKnown(c, log)
    ensures Within(c, Pick(log, IsDone)) && Within(c, Pick(log, IsDownloaded))
    ensures Outcome(c, log).toDelete == Cleanup(c, Pick(log, IsDone))
    ensures Outcome(c, log).paths == PathsOf(c, Pick(log, IsDownloaded))
    ensures Outcome(c, log).fetched == Pick(log, IsAttempted)
  {
    if log != [] {
      var rest, a := log[..|log| - 1], log[|log| - 1];
      OutcomeLists(c, rest);
      assert Outcome(c, log) == Extended(c, Outcome(c, rest), a);
      if a.status.done {
        OneMore(c, Pick(rest, IsDone), a.status.node);
        OneMore(c, Pick(rest, IsDownloaded), a.status.node);
      }
      Picks(log, IsDone);
      Picks(log, IsDownloaded);
      Picks(log, IsAttempted);
    }
  }

  lemma OneMore(c: Request, ns: seq<nat>, n: nat)
    requires Within(c, ns) && n < |c.nodes|
    ensures Within(c, ns + [n])
    ensures Cleanup(c, ns + [n]) == Cleanup(c, ns) + [BundleToDelete(c.nodes[n].baseURL, c.id)]
    ensures PathsOf(c, ns + [n]) == PathsOf(c, ns) + [BundlePath(c, n)]
  {
  }

  lemma Picks(log: seq<Arrival>, p: Arrival -> bool)
    requires log != []
    ensures var a, rest := log[|log| - 1], log[..|log| - 1];
            Pick(log, p) == if p(a) then Pick(rest, p) + [a.status.node] else Pick(rest, p)
  {
  }

  lemma {:induction false} Picked(log: seq<Arrival>, p: Arrival -> bool, n: nat)
    ensures n in Pick(log, p) <==> exists k :: 0 <= k < |log| && p(log[k]) && log[k].status.node == n
  {
    if log != [] {
      var rest := log[..|log| - 1];
      Picked(rest, p, n);
      assert forall k :: 0 <= k < |rest| ==> rest[k] == log[k];
    }
  }

  function Chosen(p: Arrival -> bool, i: nat): Arrival -> nat {
    (a: Arrival) => if p(a) && a.status.node == i then 1 else 0
  }

  lemma {:induction false} PickCount(log: seq<Arrival>, p: Arrival -> bool, i: nat)
    ensures Sum(Pick(log, p), Is(i)) == Sum(log, Chosen(p, i))
  {
    if log != [] {
      var rest, a := log[..|log| - 1], log[|log| - 1];
      PickCount(rest, p, i);
      assert log == rest + [a];
      SumAppend(rest, a, Chosen(p, i));
      if p(a) {
        SumAppend(Pick(rest, p), a.status.node, Is(i));
      } else {
        assert Pick(log, p) == Pick(rest, p);
      }
    }
  }

  /** Done statuses of a node are counted by its occurrences among the done nodes. */
  lemma PickedDone(log: seq<Arrival>, i: nat)
    ensures Sum(Pick(log, IsDone), Is(i)) == Sum(log, ArrivalToken(Only(i)))
    ensures Sum(Pick(log, IsDownloaded), Is(i)) <= Sum(log, ArrivalToken(Only(i)))
  {
    PickCount(log, IsDone, i);
    PickCount(log, IsDownloaded, i);
    forall a: Arrival | a in log
      ensures Chosen(IsDone, i)(a) == ArrivalToken(Only(i))(a) && Chosen(IsDownloaded, i)(a) <= ArrivalToken(Only(i))(a)
    {
      assert IsDone(a) == a.status.done && (IsDownloaded(a) ==> a.status.done);
    }
    SumBound(log, Chosen(IsDone, i), ArrivalToken(Only(i)));
    SumBound(log, ArrivalToken(Only(i)), Chosen(IsDone, i));
    SumBound(log, Chosen(IsDownloaded, i), ArrivalToken(Only(i)));
  }

  lemma OnceOnly<T>(s: seq<T>, f: T -> nat, j: nat, k: nat)
    requires j < k < |s| && f(s[j]) > 0 && f(s[k]) > 0
    ensures Sum(s, f) >= 2
  {
    SumRemove(s, k, f);
    SumRemove(s[..k] + s[k + 1..], j, f);
  }

  // ---------------------------------------------------------------- the report

  lemma {:induction false} ReportAt(c: Request, log: seq<Arrival>, k: nat)
    requires AllKnown(c, log) && k < |log| && log[k].status.done
    requires forall j :: k < j < |log| && log[j].status.done ==>
               c.nodes[log[j].status.node].ip != c.nodes[log[k].status.node].ip
    ensures var ip := c.nodes[log[k].status.node].ip;
            ip in Outcome(c, log).report && Outcome(c, log).report[ip] == Verdict(log[k])
  {
    if k < |log| - 1 {
      ReportAt(c, log[..|log| - 1], k);
    }
  }

  lemma {:induction false} ReportKeys(c: Request, log: seq<Arrival>)
    requires AllKnown(c, log)
    ensures Outcome(c, log).report.Keys <= set i | 0 <= i < |c.nodes| :: c.nodes[i].ip
  {
    if log != [] {
      ReportKeys(c, log[..|log| - 1]);
    }
  }
}
