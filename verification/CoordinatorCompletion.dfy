/** A bound on every run of the coordinator, cancelled or not, in terms of the replies that were not final. */
module CoordinatorCompletion {
  import opened Common
  import opened Sums
  import opened Coordinator
  import opened CoordinatorProgress

  /** A status request failed or found a bundle that is still being made: the node will be asked again. */
  predicate NotFinal(e: Event) {
    e.StatusReturns? &&
    match e.reply
    case StatusFailed(_) => true
    case StatusIs(status) => status == Unknown || status == Started || status == InProgress
  }

  function AskAgain(): Event -> nat {
    (e: Event) => if NotFinal(e) then 1 else 0
  }

  function JobEffort(): Job -> nat {
    (j: Job) => if j.CreateJob? then 10 else 5
  }

  function PhaseEffort(p: Phase): nat {
    match p
    case Waiting => 0
    case Running(CreateJob(_)) => 9
    case Running(CheckJob(_)) => 4
    case Enqueuing(_) => 8
    case Querying(_) => 3
    case Sending(_) => 2
  }

  function WorkerEffort(): Worker -> nat {
    (w: Worker) => PhaseEffort(w.phase) + if w.flushing then 0 else 1
  }

  /** The events that can still happen when every later reply is final. */
  function Effort(s: State): nat {
    11 * |s.unfed| + Sum(s.jobs, JobEffort()) + Sum(s.workers, WorkerEffort()) + 6 * |s.timers| + |s.statuses| +
    if s.cancelled then 0 else 1
  }

  lemma MoveEffort(s: State, w: nat, p: Phase)
    requires w < |s.workers|
    ensures Sum(Move(s, w, p).workers, WorkerEffort()) + PhaseEffort(s.workers[w].phase)
         == Sum(s.workers, WorkerEffort()) + PhaseEffort(p)
  {
    SumSet(s.workers, w, s.workers[w].(phase := p), WorkerEffort());
  }

  lemma CallReturns(c: Request, s: State, e: Event, w: nat)
    requires Enabled(c, s, e)
    requires e == CheckContext(w) || (e.CreateReturns? && e.w == w) || (e.StatusReturns? && e.w == w)
    ensures Effort(Next(c, s, e)) + 1 <= Effort(s) + 6 * AskAgain()(e)
  {
    MoveEffort(s, w, Next(c, s, e).workers[w].phase);
  }

  lemma QueueMoves(c: Request, s: State, e: Event)
    requires Enabled(c, s, e) && (e.Take? || e.Enqueue? || e.Send?)
    ensures Effort(Next(c, s, e)) + 1 <= Effort(s)
  {
    MoveEffort(s, e.w, Next(c, s, e).workers[e.w].phase);
    if e.Enqueue? {
      SumAppend(s.jobs, CheckJob(s.workers[e.w].phase.node), JobEffort());
    }
  }

  /** Every event lowers the effort; only a reply that is not final raises it, by five. */
  lemma StepCosts(c: Request, s: State, e: Event)
    requires Enabled(c, s, e)
    ensures Effort(Next(c, s, e)) + 1 <= Effort(s) + 6 * AskAgain()(e)
  {
    match e
    case Feed => SumAppend(s.jobs, CreateJob(s.unfed[0]), JobEffort());
    case Take(_) => QueueMoves(c, s, e);
    case Enqueue(_) => QueueMoves(c, s, e);
    case Send(_) => QueueMoves(c, s, e);
    case EnterFlush(w) => SumSet(s.workers, w, Worker(true, Waiting), WorkerEffort());
    case CreateReturns(w, _) => CallReturns(c, s, e, w);
    case CheckContext(w) => CallReturns(c, s, e, w);
    case StatusReturns(w, _) => CallReturns(c, s, e, w);
    case Fire(k) => SumAppend(s.jobs, CheckJob(s.timers[k]), JobEffort());
    case _ =>
  }

  lemma {:induction false} RunCosts(c: Request, s: State, es: seq<Event>)
    requires Run(c, s, es)
    ensures |es| + Effort(After(c, s, es)) <= Effort(s) + 6 * Sum(es, AskAgain())
    decreases |es|
  {
    if es != [] {
      StepCosts(c, s, es[0]);
      RunCosts(c, Next(c, s, es[0]), es[1..]);
    }
  }

  lemma {:induction false} IdleEffort(ws: seq<Worker>)
    requires forall k :: 0 <= k < |ws| ==> ws[k] == Worker(false, Waiting)
    ensures Sum(ws, WorkerEffort()) == |ws|
  {
    if ws != [] {
      IdleEffort(ws[1..]);
    }
  }

  /**
    A run with U replies that are not final has at most 11 N + 11 + 6 U events, cancelled or not; and where
    nothing but the cancellation can happen any more, all N nodes are counted. So a bundle is complete
    whenever the remote bundles finish after finitely many replies.
   */
  lemma RunCompletes(c: Request, es: seq<Event>)
    requires Run(c, Init(c), es)
    ensures |es| <= 11 * |c.nodes| + 11 + 6 * Sum(es, AskAgain())
    ensures var s := After(c, Init(c), es);
            (forall e :: Enabled(c, s, e) ==> e == Cancel) ==> DoneCount(s.received) == |c.nodes|
  {
    IdleEffort(Init(c).workers);
    RunCosts(c, Init(c), es);
    var s := After(c, Init(c), es);
    InitInv(c);
    RunKeepsInv(c, Init(c), es);
    TokenTotal(s);
    if DoneCount(s.received) < |c.nodes| {
      var e := StepAvailable(c, s);
    }
  }
}
