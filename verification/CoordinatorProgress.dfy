/** Liveness of the coordinator: sends on `jobs` never block, no deadlock, bounded work after cancel. */
module CoordinatorProgress {
  import opened Common
  import opened Sums
  import opened Coordinator

  /** What every event keeps. */
  ghost predicate Inv(c: Request, s: State) {
    && Tokens(s, All()) == |c.nodes|
    && |s.workers| == NUMBER_OF_WORKERS
    && |s.statuses| <= |c.nodes|
  }

  lemma StepShape(c: Request, s: State, e: Event)
    requires Enabled(c, s, e)
    ensures |Next(c, s, e).workers| == |s.workers|
    ensures |s.statuses| <= |c.nodes| ==> |Next(c, s, e).statuses| <= |c.nodes|
  {
  }

  lemma StepKeepsInv(c: Request, s: State, e: Event)
    requires Inv(c, s) && Enabled(c, s, e)
    ensures Inv(c, Next(c, s, e))
  {
    StepShape(c, s, e);
    StepConserves(c, s, e, All());
  }

  lemma {:induction false} RunKeepsInv(c: Request, s: State, es: seq<Event>)
    requires Inv(c, s) && Run(c, s, es)
    ensures Inv(c, After(c, s, es))
    decreases |es|
  {
    if es != [] {
      StepKeepsInv(c, s, es[0]);
      RunKeepsInv(c, Next(c, s, es[0]), es[1..]);
    }
  }

  lemma InitInv(c: Request)
    ensures Inv(c, Init(c))
  {
    InitialTokens(c, [], 0);
  }

  lemma {:induction false} SumOnes<T>(s: seq<T>, f: T -> nat)
    requires forall x :: x in s ==> f(x) == 1
    ensures Sum(s, f) == |s|
  {
    if s != [] {
      assert s[0] in s;
      SumOnes(s[1..], f);
    }
  }

  /** The token total as plain lengths. */
  lemma TokenTotal(s: State)
    ensures Tokens(s, All()) == |s.unfed| + |s.jobs| + Sum(s.workers, WorkerToken(All())) + |s.timers| +
                                Sum(s.statuses, StatusToken(All())) + DoneCount(s.received)
  {
    SumOnes(s.unfed, NodeToken(All()));
    SumOnes(s.jobs, JobToken(All()));
    SumOnes(s.timers, NodeToken(All()));
  }

  function PendingSend(): Worker -> nat {
    (w: Worker) => if w.phase.Enqueuing? then 1 else 0
  }

  lemma RoomForSenders(c: Request, s: State)
    requires Inv(c, s)
    ensures |s.jobs| + |s.unfed| + |s.timers| + Sum(s.workers, PendingSend()) <= |c.nodes|
  {
    TokenTotal(s);
    SumBound(s.workers, PendingSend(), WorkerToken(All()));
  }

  lemma SenderCounts(s: State, w: nat)
    requires w < |s.workers| && s.workers[w].phase.Enqueuing?
    ensures Sum(s.workers, PendingSend()) >= 1
  {
    SumRemove(s.workers, w, PendingSend());
  }

  /** Room for all pending senders of the job channel together, hence no send on it ever blocks. */
  lemma NoSendBlocks(c: Request, es: seq<Event>)
    requires Run(c, Init(c), es)
    ensures var s := After(c, Init(c), es);
            && |s.workers| == 10
            && |s.jobs| + |s.unfed| + |s.timers| + Sum(s.workers, PendingSend()) <= |c.nodes|
            && (s.unfed != [] ==> Enabled(c, s, Feed))
            && (forall k: nat :: k < |s.timers| ==> Enabled(c, s, Fire(k)))
            && (forall w: nat :: w < |s.workers| && s.workers[w].phase.Enqueuing? ==> Enabled(c, s, Enqueue(w)))
  {
    var s := After(c, Init(c), es);
    InitInv(c);
    RunKeepsInv(c, Init(c), es);
    SendersFit(c, s);
  }

  lemma SendersFit(c: Request, s: State)
    requires Inv(c, s)
    ensures |s.jobs| + |s.unfed| + |s.timers| + Sum(s.workers, PendingSend()) <= |c.nodes|
    ensures s.unfed != [] ==> Enabled(c, s, Feed)
    ensures forall k: nat :: k < |s.timers| ==> Enabled(c, s, Fire(k))
    ensures forall w: nat :: w < |s.workers| && s.workers[w].phase.Enqueuing? ==> Enabled(c, s, Enqueue(w))
  {
    RoomForSenders(c, s);
    forall w: nat | w < |s.workers| && s.workers[w].phase.Enqueuing? ensures |s.jobs| < |c.nodes| {
      SenderCounts(s, w);
    }
  }

  /** The event that continues worker w when it is not waiting. */
  function Continue(s: State, w: nat): Event
    requires w < |s.workers|
  {
    match s.workers[w].phase
    case Waiting => Take(w)
    case Running(CreateJob(_)) => CreateReturns(w, None)
    case Running(CheckJob(_)) => CheckContext(w)
    case Enqueuing(_) => Enqueue(w)
    case Querying(_) => StatusReturns(w, StatusIs(Started))
    case Sending(_) => Send(w)
  }

  lemma WorkerContinues(c: Request, s: State, w: nat)
    requires Inv(c, s) && s.unfed == [] && s.statuses == [] && DoneCount(s.received) < |c.nodes|
    requires w < |s.workers|
    requires !s.workers[w].phase.Waiting? || s.jobs != []
    ensures Enabled(c, s, Continue(s, w))
  {
    if s.workers[w].phase.Enqueuing? {
      TokenTotal(s);
      SumRemove(s.workers, w, WorkerToken(All()));
    }
  }

  lemma StepAvailable(c: Request, s: State) returns (e: Event)
    requires Inv(c, s) && DoneCount(s.received) < |c.nodes|
    ensures e != Cancel && Enabled(c, s, e)
  {
    TokenTotal(s);
    if s.unfed != [] {
      e := Feed;
    } else if s.statuses != [] {
      e := Collect(Download(None, None));
    } else if Sum(s.workers, WorkerToken(All())) > 0 {
      var w := SumFind(s.workers, WorkerToken(All()));
      WorkerContinues(c, s, w);
      e := Continue(s, w);
    } else if s.jobs != [] {
      WorkerContinues(c, s, 0);
      e := Continue(s, 0);
    } else {
      e := Fire(0);
    }
  }

  /** While the collector waits for a node, some event other than the cancellation can happen. */
  lemma NoDeadlock(c: Request, es: seq<Event>) returns (e: Event)
    requires Run(c, Init(c), es) && DoneCount(After(c, Init(c), es).received) < |c.nodes|
    ensures e != Cancel && Enabled(c, After(c, Init(c), es), e)
  {
    InitInv(c);
    RunKeepsInv(c, Init(c), es);
    e := StepAvailable(c, After(c, Init(c), es));
  }

  // ---------------------------------------------------------------- order

  function Taken(es: seq<Event>): nat {
    if es == [] then 0 else (if es[0].Take? then 1 else 0) + Taken(es[1..])
  }

  function Collected(es: seq<Event>): nat {
    if es == [] then 0 else (if es[0].Collect? then 1 else 0) + Collected(es[1..])
  }

  /** No job is overtaken: job k of the queue is k - t places further on after t takes, so the next takes come to it. */
  lemma {:induction false} JobsInOrder(c: Request, s: State, es: seq<Event>, k: nat)
    requires Run(c, s, es) && k < |s.jobs| && Taken(es) <= k
    ensures k - Taken(es) < |After(c, s, es).jobs| && After(c, s, es).jobs[k - Taken(es)] == s.jobs[k]
    decreases |es|
  {
    if es != [] {
      JobsInOrder(c, Next(c, s, es[0]), es[1..], if es[0].Take? then k - 1 else k);
    }
  }

  /** A worker that takes a job takes the first one. */
  lemma TakesFirst(c: Request, s: State, w: nat)
    requires Enabled(c, s, Take(w))
    ensures Next(c, s, Take(w)).workers[w].phase == Running(s.jobs[0]) && [s.jobs[0]] + Next(c, s, Take(w)).jobs == s.jobs
  {
  }

  /** The collector receives the statuses in the order of the channel. */
  lemma {:induction false} StatusesInOrder(c: Request, s: State, es: seq<Event>, k: nat)
    requires Run(c, s, es) && k < |s.statuses|
    ensures var t := After(c, s, es);
            if Collected(es) <= k
            then k - Collected(es) < |t.statuses| && t.statuses[k - Collected(es)] == s.statuses[k]
            else |s.received| + k < |t.received| && t.received[|s.received| + k].status == s.statuses[k]
    decreases |es|
  {
    if es != [] {
      var t := Next(c, s, es[0]);
      StatusMoves(c, s, es[0], k);
      if !es[0].Collect? {
        StatusesInOrder(c, t, es[1..], k);
      } else if k == 0 {
        ReceivedKept(c, t, es[1..]);
      } else {
        StatusesInOrder(c, t, es[1..], k - 1);
      }
    }
  }

  lemma StatusMoves(c: Request, s: State, e: Event, k: nat)
    requires Enabled(c, s, e) && k < |s.statuses|
    ensures var t := Next(c, s, e);
            if !e.Collect? then k < |t.statuses| && t.statuses[k] == s.statuses[k] && t.received == s.received
            else |t.received| == |s.received| + 1 &&
                 if k == 0 then t.received[|s.received|].status == s.statuses[0]
                 else k - 1 < |t.statuses| && t.statuses[k - 1] == s.statuses[k]
  {
  }

  lemma {:induction false} ReceivedKept(c: Request, s: State, es: seq<Event>)
    requires Run(c, s, es)
    ensures s.received <= After(c, s, es).received
    decreases |es|
  {
    if es != [] {
      ReceivedKept(c, Next(c, s, es[0]), es[1..]);
    }
  }

  /**
    The feeder goes through the nodes in their order, a worker flushes only once the context has ended, and
    nothing is received before all nodes are queued or after the last done status.
   */
  ghost predicate Orderly(c: Request, s: State) {
    && |s.unfed| <= |c.nodes| && s.unfed == Range(|c.nodes|)[|c.nodes| - |s.unfed|..]
    && (forall k :: 0 <= k < |s.workers| && s.workers[k].flushing ==> s.cancelled)
    && (s.received != [] ==> s.unfed == [])
    && (s.received != [] && DoneCount(s.received) >= |c.nodes| ==> s.received[|s.received| - 1].status.done)
  }

  lemma StepOrderly(c: Request, s: State, e: Event)
    requires Enabled(c, s, e) && Orderly(c, s)
    ensures Orderly(c, Next(c, s, e))
  {
    if e.Feed? {
      assert s.unfed[1..] == Range(|c.nodes|)[|c.nodes| - |s.unfed| + 1..];
    }
    FlushersStay(c, s, e);
    if e.Collect? {
      SumAppend(s.received, Arrival(s.statuses[0], e.fetch), ArrivalToken(All()));
    }
  }

  lemma FlushersStay(c: Request, s: State, e: Event)
    requires Enabled(c, s, e) && forall k :: 0 <= k < |s.workers| && s.workers[k].flushing ==> s.cancelled
    ensures forall k :: 0 <= k < |Next(c, s, e).workers| && Next(c, s, e).workers[k].flushing ==> Next(c, s, e).cancelled
  {
  }

  lemma {:induction false} RunOrderly(c: Request, s: State, es: seq<Event>)
    requires Run(c, s, es) && Orderly(c, s)
    ensures Orderly(c, After(c, s, es))
    decreases |es|
  {
    if es != [] {
      StepOrderly(c, s, es[0]);
      RunOrderly(c, Next(c, s, es[0]), es[1..]);
    }
  }

  /** In every run a flushing worker means that the context has ended, and a received status that all nodes were queued; the collector stops at the last done status. */
  lemma RunsOrderly(c: Request, es: seq<Event>)
    requires Run(c, Init(c), es)
    ensures var s := After(c, Init(c), es);
            && (forall k :: 0 <= k < |s.workers| && s.workers[k].flushing ==> s.cancelled)
            && (s.received != [] ==> s.unfed == [])
            && (s.received != [] && DoneCount(s.received) >= |c.nodes| ==> s.received[|s.received| - 1].status.done)
  {
    assert Range(|c.nodes|)[0..] == Range(|c.nodes|);
    RunOrderly(c, Init(c), es);
  }

  /** In every run the next create job to be queued is that of the first node without one. */
  lemma FedInOrder(c: Request, es: seq<Event>)
    requires Run(c, Init(c), es) && Enabled(c, After(c, Init(c), es), Feed)
    ensures |After(c, Init(c), es).unfed| <= |c.nodes|
    ensures var s := After(c, Init(c), es);
            Next(c, s, Feed).jobs == s.jobs + [CreateJob(|c.nodes| - |s.unfed|)]
  {
    assert Range(|c.nodes|)[0..] == Range(|c.nodes|);
    RunOrderly(c, Init(c), es);
  }

  // ---------------------------------------------------------------- after cancellation

  function JobWork(): Job -> nat {
    (j: Job) => if j.CreateJob? then 9 else 4
  }

  function PhaseWork(p: Phase): nat {
    match p
    case Waiting => 0
    case Running(CreateJob(_)) => 8
    case Running(CheckJob(_)) => 3
    case Enqueuing(_) => 7
    case Querying(_) => 8
    case Sending(_) => 2
  }

  function WorkerWork(): Worker -> nat {
    (w: Worker) => PhaseWork(w.phase) + if w.flushing then 0 else 1
  }

  /** A bound on the number of events that can still happen once the context is cancelled. */
  function Work(s: State): nat {
    10 * |s.unfed| + Sum(s.jobs, JobWork()) + Sum(s.workers, WorkerWork()) + 5 * |s.timers| + |s.statuses|
  }

  lemma TakeWorks(c: Request, s: State, w: nat)
    requires Enabled(c, s, Take(w)) && s.cancelled
    ensures Work(Next(c, s, Take(w))) < Work(s)
  {
    var t := Next(c, s, Take(w));
    SumSet(s.workers, w, t.workers[w], WorkerWork());
  }

  lemma CreateReturnsWorks(c: Request, s: State, w: nat, err: Option<string>)
    requires Enabled(c, s, CreateReturns(w, err)) && s.cancelled
    ensures Work(Next(c, s, CreateReturns(w, err))) < Work(s)
  {
    var t := Next(c, s, CreateReturns(w, err));
    SumSet(s.workers, w, t.workers[w], WorkerWork());
  }

  lemma EnqueueWorks(c: Request, s: State, w: nat)
    requires Enabled(c, s, Enqueue(w)) && s.cancelled
    ensures Work(Next(c, s, Enqueue(w))) < Work(s)
  {
    var t := Next(c, s, Enqueue(w));
    SumSet(s.workers, w, t.workers[w], WorkerWork());
    SumAppend(s.jobs, CheckJob(s.workers[w].phase.node), JobWork());
  }

  lemma StatusReturnsWorks(c: Request, s: State, w: nat, r: StatusReply)
    requires Enabled(c, s, StatusReturns(w, r)) && s.cancelled
    ensures Work(Next(c, s, StatusReturns(w, r))) < Work(s)
  {
    var t := Next(c, s, StatusReturns(w, r));
    SumSet(s.workers, w, t.workers[w], WorkerWork());
  }

  lemma StepWorks(c: Request, s: State, e: Event)
    requires Enabled(c, s, e) && s.cancelled
    ensures Work(Next(c, s, e)) < Work(s)
  {
    match e
    case Feed => SumAppend(s.jobs, CreateJob(s.unfed[0]), JobWork());
    case Take(w) => TakeWorks(c, s, w);
    case EnterFlush(w) => SumSet(s.workers, w, Worker(true, Waiting), WorkerWork());
    case CreateReturns(w, err) => CreateReturnsWorks(c, s, w, err);
    case Enqueue(w) => EnqueueWorks(c, s, w);
    case CheckContext(w) => SumSet(s.workers, w, Next(c, s, e).workers[w], WorkerWork());
    case StatusReturns(w, r) => StatusReturnsWorks(c, s, w, r);
    case Fire(k) => SumAppend(s.jobs, CheckJob(s.timers[k]), JobWork());
    case Send(w) => SumSet(s.workers, w, Next(c, s, e).workers[w], WorkerWork());
    case Collect(_) =>
  }

  lemma {:induction false} RunWorks(c: Request, s: State, es: seq<Event>)
    requires Run(c, s, es) && s.cancelled
    ensures After(c, s, es).cancelled && |es| + Work(After(c, s, es)) <= Work(s)
    decreases |es|
  {
    if es != [] {
      StepWorks(c, s, es[0]);
      RunWorks(c, Next(c, s, es[0]), es[1..]);
    }
  }

  lemma {:induction false} WorkerWorkBound(ws: seq<Worker>)
    ensures Sum(ws, WorkerWork()) <= 10 * Sum(ws, WorkerToken(All())) + 3 * |ws|
  {
    if ws != [] {
      WorkerWorkBound(ws[1..]);
    }
  }

  lemma {:induction false} JobWorkBound(js: seq<Job>)
    ensures Sum(js, JobWork()) <= 10 * |js|
  {
    if js != [] {
      JobWorkBound(js[1..]);
    }
  }

  lemma WorkBound(c: Request, s: State)
    requires Inv(c, s)
    ensures Work(s) <= 11 * |c.nodes| + 30
  {
    TokenTotal(s);
    WorkerWorkBound(s.workers);
    JobWorkBound(s.jobs);
  }

  /**
    After cancellation at most 11 N + 30 further events can happen, whatever the client calls answer,
    and the run can only stop with all N nodes counted by the collector.
   */
  lemma CancelledRunCompletes(c: Request, es: seq<Event>, more: seq<Event>)
    requires Run(c, Init(c), es) && After(c, Init(c), es).cancelled
    requires Run(c, After(c, Init(c), es), more)
    ensures |more| <= 11 * |c.nodes| + 30
    ensures var s := After(c, After(c, Init(c), es), more);
            (forall e :: !Enabled(c, s, e)) ==> DoneCount(s.received) == |c.nodes|
  {
    var s0 := After(c, Init(c), es);
    InitInv(c);
    RunKeepsInv(c, Init(c), es);
    WorkBound(c, s0);
    RunWorks(c, s0, more);
    RunKeepsInv(c, s0, more);
    var s := After(c, s0, more);
    TokenTotal(s);
    if DoneCount(s.received) < |c.nodes| {
      var e := StepAvailable(c, s);
    }
  }

  // ---------------------------------------------------------------- exactly once

  lemma NoOther<T>(s: seq<T>, one: T -> nat, all: T -> nat)
    requires Sum(s, all) == 0
    requires forall x :: x in s ==> one(x) <= all(x)
    ensures Sum(s, one) == 0
  {
    SumBound(s, one, all);
  }

  /** When every token is a counted done status, so is the token of each node. */
  lemma AllCounted(s: State, i: nat)
    requires Tokens(s, All()) == DoneCount(s.received)
    ensures Tokens(s, Only(i)) == Sum(s.received, ArrivalToken(Only(i)))
  {
    NoOther(s.unfed, NodeToken(Only(i)), NodeToken(All()));
    NoOther(s.jobs, JobToken(Only(i)), JobToken(All()));
    NoOther(s.workers, WorkerToken(Only(i)), WorkerToken(All()));
    NoOther(s.timers, NodeToken(Only(i)), NodeToken(All()));
    NoOther(s.statuses, StatusToken(Only(i)), StatusToken(All()));
  }

  /** In every run each node reports done at most once; when the collector stops, exactly once. */
  lemma DoneExactlyOnce(c: Request, es: seq<Event>, i: nat)
    requires Run(c, Init(c), es) && i < |c.nodes|
    ensures var log := After(c, Init(c), es).received;
            && Sum(log, ArrivalToken(Only(i))) <= 1
            && DoneCount(log) <= |c.nodes|
            && (DoneCount(log) == |c.nodes| ==> Sum(log, ArrivalToken(Only(i))) == 1)
  {
    var s := After(c, Init(c), es);
    InitialTokens(c, es, i);
    if DoneCount(s.received) == |c.nodes| {
      AllCounted(s, i);
    }
  }
}
