/** Why a node ends as it does: the done statuses of a run are exactly the ends that its events call for. */
module NodeHistory {
  import opened Common
  import opened Sums
  import opened Coordinator
  import opened CoordinatorProgress
  import opened Collection
  import opened ClusterBundle

  /** Done, Deleted, Canceled and Failed are the statuses that will not change. */
  predicate Final(status: Status) {
    status == Done || status == Deleted || status == Canceled || status == Failed
  }

  /**
    The end of a node's collection, read off the event alone: its create call failed, its check found
    the context finished, or its status request answered with a status that will not change.
   */
  function Ending(c: Request, s: State, e: Event): seq<BundleStatus>
    requires Enabled(c, s, e)
  {
    match e
    case CreateReturns(w, Some(err)) =>
      [BundleStatus(c.id, s.workers[w].phase.job.node, true, Some(CouldNotCreate(err)))]
    case CheckContext(w) =>
      if s.cancelled then [BundleStatus(c.id, s.workers[w].phase.job.node, true, Some(ContextFinished))] else []
    case StatusReturns(w, StatusIs(status)) =>
      if Final(status) then [BundleStatus(c.id, s.workers[w].phase.node, true, None)] else []
    case _ => []
  }

  function Endings(c: Request, s: State, es: seq<Event>): seq<BundleStatus>
    requires Run(c, s, es)
    decreases |es|
  {
    if es == [] then [] else Ending(c, s, es[0]) + Endings(c, Next(c, s, es[0]), es[1..])
  }

  // ---------------------------------------------------------------- conservation of done statuses

  function Matching(p: BundleStatus -> bool): BundleStatus -> nat {
    (b: BundleStatus) => if b.done && p(b) then 1 else 0
  }

  function PhaseMatching(ph: Phase, p: BundleStatus -> bool): nat {
    if ph.Sending? && ph.status.done && p(ph.status) then 1 else 0
  }

  function WorkerMatching(p: BundleStatus -> bool): Worker -> nat {
    (w: Worker) => PhaseMatching(w.phase, p)
  }

  function ArrivalMatching(p: BundleStatus -> bool): Arrival -> nat {
    (a: Arrival) => if a.status.done && p(a.status) then 1 else 0
  }

  /** The done statuses selected by p, held by workers, in the channel or received. */
  function DoneStatuses(s: State, p: BundleStatus -> bool): nat {
    Sum(s.workers, WorkerMatching(p)) + Sum(s.statuses, Matching(p)) + Sum(s.received, ArrivalMatching(p))
  }

  lemma MoveMatching(s: State, w: nat, ph: Phase, p: BundleStatus -> bool)
    requires w < |s.workers|
    ensures Sum(Move(s, w, ph).workers, WorkerMatching(p)) + PhaseMatching(s.workers[w].phase, p)
         == Sum(s.workers, WorkerMatching(p)) + PhaseMatching(ph, p)
  {
    SumSet(s.workers, w, s.workers[w].(phase := ph), WorkerMatching(p));
  }

  lemma WorkerEnds(c: Request, s: State, e: Event, w: nat, p: BundleStatus -> bool)
    requires Enabled(c, s, e)
    requires e == Take(w) || (e.CreateReturns? && e.w == w) || e == Enqueue(w) || e == CheckContext(w) ||
             (e.StatusReturns? && e.w == w)
    ensures DoneStatuses(Next(c, s, e), p) == DoneStatuses(s, p) + Sum(Ending(c, s, e), Matching(p))
  {
    MoveMatching(s, w, Next(c, s, e).workers[w].phase, p);
  }

  lemma SendEnds(c: Request, s: State, w: nat, p: BundleStatus -> bool)
    requires Enabled(c, s, Send(w))
    ensures DoneStatuses(Next(c, s, Send(w)), p) == DoneStatuses(s, p)
  {
    MoveMatching(s, w, Waiting, p);
    SumAppend(s.statuses, s.workers[w].phase.status, Matching(p));
  }

  lemma StepEnds(c: Request, s: State, e: Event, p: BundleStatus -> bool)
    requires Enabled(c, s, e)
    ensures DoneStatuses(Next(c, s, e), p) == DoneStatuses(s, p) + Sum(Ending(c, s, e), Matching(p))
  {
    match e
    case EnterFlush(w) => SumSet(s.workers, w, Worker(true, Waiting), WorkerMatching(p));
    case Send(w) => SendEnds(c, s, w, p);
    case Collect(f) => SumAppend(s.received, Arrival(s.statuses[0], f), ArrivalMatching(p));
    case Take(w) => WorkerEnds(c, s, e, w, p);
    case CreateReturns(w, _) => WorkerEnds(c, s, e, w, p);
    case Enqueue(w) => WorkerEnds(c, s, e, w, p);
    case CheckContext(w) => WorkerEnds(c, s, e, w, p);
    case StatusReturns(w, _) => WorkerEnds(c, s, e, w, p);
    case _ =>
  }

  lemma {:induction false} RunEnds(c: Request, s: State, es: seq<Event>, p: BundleStatus -> bool)
    requires Run(c, s, es)
    ensures DoneStatuses(After(c, s, es), p) == DoneStatuses(s, p) + Sum(Endings(c, s, es), Matching(p))
    decreases |es|
  {
    if es != [] {
      var t := Next(c, s, es[0]);
      StepEnds(c, s, es[0], p);
      RunEnds(c, t, es[1..], p);
      SumConcat(Ending(c, s, es[0]), Endings(c, t, es[1..]), Matching(p));
    }
  }

  lemma {:induction false} IdleSendNothing(ws: seq<Worker>, p: BundleStatus -> bool)
    requires forall w :: w in ws ==> w.phase.Waiting?
    ensures Sum(ws, WorkerMatching(p)) == 0
  {
    if ws != [] {
      assert ws[0] in ws;
      IdleSendNothing(ws[1..], p);
    }
  }

  /** In every run, in-flight and received done statuses together are the ends that occurred, each once. */
  lemma EndingsConserved(c: Request, es: seq<Event>, p: BundleStatus -> bool)
    requires Run(c, Init(c), es)
    ensures DoneStatuses(After(c, Init(c), es), p) == Sum(Endings(c, Init(c), es), Matching(p))
  {
    IdleSendNothing(Init(c).workers, p);
    RunEnds(c, Init(c), es, p);
  }

  lemma {:induction false} EndingsDone(c: Request, s: State, es: seq<Event>)
    requires Run(c, s, es)
    ensures forall k :: 0 <= k < |Endings(c, s, es)| ==> Endings(c, s, es)[k].done
    decreases |es|
  {
    if es != [] {
      EndingsDone(c, Next(c, s, es[0]), es[1..]);
    }
  }

  // ---------------------------------------------------------------- at the end of a run

  function Of(i: nat): BundleStatus -> bool { (b: BundleStatus) => b.node == i }

  function Same(x: BundleStatus): BundleStatus -> bool { (b: BundleStatus) => b == x }

  /** A node whose token has been received has no done status elsewhere. */
  lemma OnlyReceived(s: State, i: nat)
    requires Tokens(s, Only(i)) == Sum(s.received, ArrivalToken(Only(i)))
    ensures DoneStatuses(s, Of(i)) == Tokens(s, Only(i))
  {
    SumBound(s.workers, WorkerMatching(Of(i)), WorkerToken(Only(i)));
    SumBound(s.statuses, Matching(Of(i)), StatusToken(Only(i)));
    SumBound(s.received, ArrivalMatching(Of(i)), ArrivalToken(Only(i)));
    SumBound(s.received, ArrivalToken(Only(i)), ArrivalMatching(Of(i)));
  }

  /** One end, and only one, occurs for each node of a finished run. */
  lemma EndsOnce(c: Request, es: seq<Event>, i: nat)
    requires Finished(c, es) && i < |c.nodes|
    ensures Sum(Endings(c, Init(c), es), Matching(Of(i))) == 1
  {
    EndingsConserved(c, es, Of(i));
    TokenOwnership(c, es, i);
    AllCounted(After(c, Init(c), es), i);
    OnlyReceived(After(c, Init(c), es), i);
  }

  lemma EndingOf(c: Request, es: seq<Event>, k: nat) returns (m: nat)
    requires Run(c, Init(c), es) && k < |Log(c, es)| && Log(c, es)[k].status.done
    ensures m < |Endings(c, Init(c), es)| && Endings(c, Init(c), es)[m] == Log(c, es)[k].status
  {
    var s, x := After(c, Init(c), es), Log(c, es)[k].status;
    EndingsConserved(c, es, Same(x));
    SumRemove(s.received, k, ArrivalMatching(Same(x)));
    m := SumFind(Endings(c, Init(c), es), Matching(Same(x)));
  }

  /**
    The report of node i in any finished run, from what happened to the node: exactly one end occurred
    for it, and the node is Done exactly when that end was a finished status and its file arrived.
    Otherwise the report gives the failed create call, the finished context or the failed download.
   */
  lemma WhyReported(c: Request, es: seq<Event>, i: nat) returns (m: nat, fetch: Download)
    requires Finished(c, es) && Named(c) && i < |c.nodes|
    ensures AllKnown(c, Log(c, es))
    ensures var ends := Endings(c, Init(c), es);
            && m < |ends| && ends[m].node == i
            && (forall j :: 0 <= j < |ends| && ends[j].node == i ==> j == m)
    ensures Arrival(Endings(c, Init(c), es)[m], fetch) in Log(c, es)
    ensures var end, o := Endings(c, Init(c), es)[m], Outcome(c, Log(c, es));
            c.nodes[i].ip in o.report &&
            o.report[c.nodes[i].ip] ==
              match (end.err, fetch.err)
              case (Some(cause), _) => NodeReport(Failed, Some(cause))
              case (None, Some(text)) => NodeReport(Failed, Some(CouldNotDownload(text)))
              case (None, None) => NodeReport(Done, None)
  {
    var ends := Endings(c, Init(c), es);
    var k := NodeOutcome(c, es, i);
    m := EndingOf(c, es, k);
    fetch := Log(c, es)[k].fetch;
    assert Log(c, es)[k] == Arrival(ends[m], fetch);
    EndsOnce(c, es, i);
    EndingsDone(c, Init(c), es);
    forall j | 0 <= j < |ends| && ends[j].node == i ensures j == m {
      if j < m {
        OnceOnly(ends, Matching(Of(i)), j, m);
      } else if m < j {
        OnceOnly(ends, Matching(Of(i)), m, j);
      }
    }
  }

  // ---------------------------------------------------------------- the calls behind a report

  /**
    What a status request does to its node: only one of the four final statuses ends it; otherwise the node
    is put on a timer, and an error of the request is passed on with the undone status.
   */
  lemma StatusDecides(c: Request, s: State, w: nat, reply: StatusReply)
    requires Enabled(c, s, StatusReturns(w, reply))
    ensures var n, t := s.workers[w].phase.node, Next(c, s, StatusReturns(w, reply));
            var ends := reply in {StatusIs(Done), StatusIs(Deleted), StatusIs(Canceled), StatusIs(Failed)};
            && t.workers[w].phase.Sending? && t.workers[w].phase.status.node == n
            && (t.workers[w].phase.status.done <==> ends)
            && t.timers == (if ends then s.timers else s.timers + [n])
            && (t.workers[w].phase.status.err == if reply.StatusFailed? then Some(CouldNotCheck(reply.err)) else None)
  {
  }

  /** A successful create call queues the node's first check, and only then reports it undone and without an error. */
  lemma CreateLeadsToCheck(c: Request, s: State, w: nat)
    requires Enabled(c, s, CreateReturns(w, None))
    ensures var n, t := s.workers[w].phase.job.node, Next(c, s, CreateReturns(w, None));
            t.statuses == s.statuses && t.jobs == s.jobs && (Enabled(c, t, Enqueue(w)) ==>
              var u := Next(c, t, Enqueue(w));
              u.jobs == s.jobs + [CheckJob(n)] && u.workers[w].phase == Sending(BundleStatus(c.id, n, false, None)))
  {
  }

  /** The event of a run in which an end occurred. */
  lemma {:induction false} EndingEvent(c: Request, s: State, es: seq<Event>, m: nat) returns (k: nat)
    requires Run(c, s, es) && m < |Endings(c, s, es)|
    ensures k < |es| && Run(c, s, es[..k]) && Enabled(c, After(c, s, es[..k]), es[k])
    ensures Ending(c, After(c, s, es[..k]), es[k]) == [Endings(c, s, es)[m]]
    decreases |es|
  {
    var first := Ending(c, s, es[0]);
    if m < |first| {
      k := 0;
    } else {
      var t := Next(c, s, es[0]);
      var j := EndingEvent(c, t, es[1..], m - |first|);
      k := j + 1;
      assert es[..k][0] == es[0] && es[..k][1..] == es[1..][..j];
    }
  }

  /** The client call or the check that event e ends at worker e.w concerns node i. */
  predicate Concerns(s: State, e: Event, i: nat)
    requires (e.CreateReturns? || e.StatusReturns? || e.CheckContext?) && e.w < |s.workers|
  {
    s.workers[e.w].phase == if e.CreateReturns? then Running(CreateJob(i))
                            else if e.CheckContext? then Running(CheckJob(i)) else Querying(i)
  }

  /** Event e in state s explains the entry of node i in the report, if its download, where there is one, ended with `fetch`. */
  predicate Explains(s: State, e: Event, i: nat, fetch: Download, r: NodeReport) {
    match e
    case CreateReturns(w, Some(text)) =>
      w < |s.workers| && Concerns(s, e, i) && r == NodeReport(Failed, Some(CouldNotCreate(text)))
    case CheckContext(w) =>
      w < |s.workers| && Concerns(s, e, i) && s.cancelled && r == NodeReport(Failed, Some(ContextFinished))
    case StatusReturns(w, StatusIs(status)) =>
      && w < |s.workers| && Concerns(s, e, i)
      && (status == Done || status == Deleted || status == Canceled || status == Failed)
      && r == (if fetch.err.None? then NodeReport(Done, None) else NodeReport(Failed, Some(CouldNotDownload(fetch.err.value))))
    case _ => false
  }

  /**
    In any finished run some event explains the report of node i: it is Done only after a reply with one of
    the four final statuses and a download without error, and otherwise Failed for the reason in the run.
   */
  lemma ReportExplained(c: Request, es: seq<Event>, i: nat) returns (k: nat, fetch: Download)
    requires Finished(c, es) && Named(c) && i < |c.nodes|
    ensures AllKnown(c, Log(c, es)) && c.nodes[i].ip in Outcome(c, Log(c, es)).report
    ensures k < |es| && Run(c, Init(c), es[..k])
    ensures Explains(After(c, Init(c), es[..k]), es[k], i, fetch, Outcome(c, Log(c, es)).report[c.nodes[i].ip])
  {
    var m: nat;
    m, fetch := WhyReported(c, es, i);
    k := EndingEvent(c, Init(c), es, m);
    var s, end := After(c, Init(c), es[..k]), Endings(c, Init(c), es)[m];
    assert Ending(c, s, es[k])[0] == end;
  }

  // ---------------------------------------------------------------- one create call per node

  function CreateToken(i: nat): Job -> nat { (j: Job) => if j == CreateJob(i) then 1 else 0 }

  function Creating(i: nat): Worker -> nat { (w: Worker) => if w.phase == Running(CreateJob(i)) then 1 else 0 }

  /** The create calls for node i that are still to be made or under way. */
  function CreatesAhead(s: State, i: nat): nat {
    Sum(s.unfed, NodeToken(Only(i))) + Sum(s.jobs, CreateToken(i)) + Sum(s.workers, Creating(i))
  }

  /** The create calls for node i that have returned. */
  function CreateCalls(c: Request, s: State, es: seq<Event>, i: nat): nat
    requires Run(c, s, es)
    decreases |es|
  {
    if es == [] then 0
    else (if es[0].CreateReturns? && s.workers[es[0].w].phase.job.node == i then 1 else 0) +
         CreateCalls(c, Next(c, s, es[0]), es[1..], i)
  }

  lemma WorkerCreates(c: Request, s: State, e: Event, i: nat)
    requires Enabled(c, s, e)
    requires e.Take? || e.EnterFlush? || e.CreateReturns? || e.Enqueue? || e.CheckContext? || e.StatusReturns? || e.Send?
    ensures Sum(Next(c, s, e).workers, Creating(i)) + Creating(i)(s.workers[e.w]) ==
            Sum(s.workers, Creating(i)) + Creating(i)(Next(c, s, e).workers[e.w])
  {
    SumSet(s.workers, e.w, Next(c, s, e).workers[e.w], Creating(i));
  }

  lemma StepCreates(c: Request, s: State, e: Event, i: nat)
    requires Enabled(c, s, e)
    ensures CreatesAhead(Next(c, s, e), i) + (if e.CreateReturns? && s.workers[e.w].phase.job.node == i then 1 else 0) ==
            CreatesAhead(s, i)
  {
    match e
    case Feed => SumAppend(s.jobs, CreateJob(s.unfed[0]), CreateToken(i));
    case Fire(k) => SumAppend(s.jobs, CheckJob(s.timers[k]), CreateToken(i));
    case Collect(_) =>
    case Cancel =>
    case Enqueue(w) => EnqueueCreates(c, s, w, i);
    case _ => WorkerCreates(c, s, e, i);
  }

  lemma EnqueueCreates(c: Request, s: State, w: nat, i: nat)
    requires Enabled(c, s, Enqueue(w))
    ensures CreatesAhead(Next(c, s, Enqueue(w)), i) == CreatesAhead(s, i)
  {
    WorkerCreates(c, s, Enqueue(w), i);
    SumAppend(s.jobs, CheckJob(s.workers[w].phase.node), CreateToken(i));
  }

  lemma {:induction false} RunCreates(c: Request, s: State, es: seq<Event>, i: nat)
    requires Run(c, s, es)
    ensures CreateCalls(c, s, es, i) + CreatesAhead(After(c, s, es), i) == CreatesAhead(s, i)
    decreases |es|
  {
    if es != [] {
      StepCreates(c, s, es[0], i);
      RunCreates(c, Next(c, s, es[0]), es[1..], i);
    }
  }

  lemma {:induction false} NoneCreating(ws: seq<Worker>, i: nat)
    requires forall k :: 0 <= k < |ws| ==> ws[k].phase.Waiting?
    ensures Sum(ws, Creating(i)) == 0
  {
    if ws != [] {
      NoneCreating(ws[1..], i);
    }
  }

  lemma CreatesAheadBound(s: State, i: nat)
    requires Tokens(s, Only(i)) == Sum(s.received, ArrivalToken(Only(i)))
    ensures CreatesAhead(s, i) == 0
  {
    SumBound(s.jobs, CreateToken(i), JobToken(Only(i)));
    SumBound(s.workers, Creating(i), WorkerToken(Only(i)));
  }

  /** A bundle is asked for at most once on each node, and exactly once when the run is finished. */
  lemma CreatedOnce(c: Request, es: seq<Event>, i: nat)
    requires Run(c, Init(c), es) && i < |c.nodes|
    ensures CreateCalls(c, Init(c), es, i) <= 1
    ensures Finished(c, es) ==> CreateCalls(c, Init(c), es, i) == 1
  {
    RunCreates(c, Init(c), es, i);
    NoneCreating(Init(c).workers, i);
    RangeTokens(|c.nodes|, i);
    if Finished(c, es) {
      TokenOwnership(c, es, i);
      AllCounted(After(c, Init(c), es), i);
      CreatesAheadBound(After(c, Init(c), es), i);
    }
  }

  // ---------------------------------------------------------------- create before check

  /** The nodes whose create call succeeded. */
  function Created(c: Request, s: State, es: seq<Event>): set<nat>
    requires Run(c, s, es)
    decreases |es|
  {
    if es == [] then {} else CreatedBy(c, s, es[0]) + Created(c, Next(c, s, es[0]), es[1..])
  }

  function CreatedBy(c: Request, s: State, e: Event): set<nat>
    requires Enabled(c, s, e)
  {
    if e.CreateReturns? && e.createErr.None? then {s.workers[e.w].phase.job.node} else {}
  }

  predicate PhaseAllowed(ph: Phase, made: set<nat>) {
    match ph
    case Running(CheckJob(n)) => n in made
    case Enqueuing(n) => n in made
    case Querying(n) => n in made
    case _ => true
  }

  /** Everything that leads to a status request belongs to a node with a bundle. */
  ghost predicate ChecksAllowed(s: State, made: set<nat>) {
    && (forall k :: 0 <= k < |s.jobs| && s.jobs[k].CheckJob? ==> s.jobs[k].node in made)
    && (forall k :: 0 <= k < |s.workers| ==> PhaseAllowed(s.workers[k].phase, made))
    && (forall k :: 0 <= k < |s.timers| ==> s.timers[k] in made)
  }

  lemma StepAllowed(c: Request, s: State, e: Event, made: set<nat>)
    requires Enabled(c, s, e) && ChecksAllowed(s, made)
    ensures ChecksAllowed(Next(c, s, e), made + CreatedBy(c, s, e))
  {
    var t, more := Next(c, s, e), made + CreatedBy(c, s, e);
    assert forall k :: 0 <= k < |s.workers| ==> PhaseAllowed(s.workers[k].phase, more);
    match e
    case Take(w) =>
      assert forall k :: 0 <= k < |t.jobs| ==> t.jobs[k] == s.jobs[k + 1];
    case StatusReturns(w, r) =>
      assert PhaseAllowed(s.workers[w].phase, made);
    case Enqueue(w) =>
      assert PhaseAllowed(s.workers[w].phase, made);
    case _ =>
  }

  lemma {:induction false} RunAllowed(c: Request, s: State, es: seq<Event>, made: set<nat>)
    requires Run(c, s, es) && ChecksAllowed(s, made)
    ensures ChecksAllowed(After(c, s, es), made + Created(c, s, es))
    decreases |es|
  {
    if es != [] {
      StepAllowed(c, s, es[0], made);
      RunAllowed(c, Next(c, s, es[0]), es[1..], made + CreatedBy(c, s, es[0]));
      assert made + Created(c, s, es) == made + CreatedBy(c, s, es[0]) + Created(c, Next(c, s, es[0]), es[1..]);
    } else {
      assert made + Created(c, s, es) == made;
    }
  }

  /** A node is asked for its status only after its create call succeeded. */
  lemma CreatedBeforeChecked(c: Request, es: seq<Event>, w: nat)
    requires Run(c, Init(c), es)
    requires w < |After(c, Init(c), es).workers| && After(c, Init(c), es).workers[w].phase.Querying?
    ensures After(c, Init(c), es).workers[w].phase.node in Created(c, Init(c), es)
  {
    RunAllowed(c, Init(c), es, {});
    var ph := After(c, Init(c), es).workers[w].phase;
    assert PhaseAllowed(ph, {} + Created(c, Init(c), es));
  }
}
