/**
  The parallel coordinator of cluster bundles as a transition system: the feeder that queues one
  create job per node, the workers, the status-check timers, the two bounded channels, the
  collector and the cancellation of the context. Client calls are oracles: the event that ends a
  call carries its outcome, so a theorem about all event sequences is about all interleavings and
  all outcomes.
 */
module Coordinator {
  import opened Common
  import opened Sums

  const NUMBER_OF_WORKERS: nat := 10

  datatype Node = Node(ip: string, role: string, baseURL: string)

  /** A cluster bundle request. Nodes are referred to by their position in `nodes`. */
  datatype Request = Request(id: string, workDir: string, nodes: seq<Node>)

  datatype Job = CreateJob(node: nat) | CheckJob(node: nat)

  /** Why a node's bundle failed. The source prints each with its own text. */
  datatype Cause =
    | CouldNotCreate(text: string)
    | CouldNotCheck(text: string)
    | ContextFinished
    | CouldNotDownload(text: string)

  datatype BundleStatus = BundleStatus(id: string, node: nat, done: bool, err: Option<Cause>)

  /** How a download ends: its error, and the archive that its file then holds (none if it is not readable). */
  datatype Download = Download(err: Option<string>, file: Option<seq<ZipFile>>)

  /** A status taken from the channel, with the end of the download that it triggers (if it does). */
  datatype Arrival = Arrival(status: BundleStatus, fetch: Download)

  datatype Phase =
    | Waiting                      // in the select, or in the flush loop
    | Running(job: Job)            // the job function was entered
    | Enqueuing(node: nat)         // about to send the follow-up job of a created bundle
    | Querying(node: nat)          // the context was still open, the status request is under way
    | Sending(status: BundleStatus)

  datatype Worker = Worker(flushing: bool, phase: Phase)

  datatype State = State(
    unfed: seq<nat>,               // nodes the feeder has still to queue
    jobs: seq<Job>,                // channel of capacity |nodes|
    workers: seq<Worker>,
    timers: seq<nat>,              // scheduled status checks
    statuses: seq<BundleStatus>,   // channel of capacity |nodes|
    received: seq<Arrival>,        // everything the collector has taken, in order
    cancelled: bool)

  datatype StatusReply = StatusFailed(err: string) | StatusIs(status: Status)

  datatype Event =
    | Feed
    | Take(w: nat)
    | EnterFlush(w: nat)
    | CreateReturns(w: nat, createErr: Option<string>)
    | Enqueue(w: nat)
    | CheckContext(w: nat)
    | StatusReturns(w: nat, reply: StatusReply)
    | Fire(k: nat)
    | Send(w: nat)
    | Collect(fetch: Download)
    | Cancel

  function Init(c: Request): State {
    State(Range(|c.nodes|), [], seq(NUMBER_OF_WORKERS, _ => Worker(false, Waiting)), [], [], [], false)
  }

  function DoneCount(log: seq<Arrival>): nat {
    Sum(log, ArrivalToken(All()))
  }

  /** Whether an event can happen: channel sends need room, receives need an element. */
  predicate Enabled(c: Request, s: State, e: Event) {
    match e
    case Feed => s.unfed != [] && |s.jobs| < |c.nodes|
    case Take(w) => w < |s.workers| && s.workers[w].phase.Waiting? && s.jobs != []
    case EnterFlush(w) => w < |s.workers| && s.workers[w].phase.Waiting? && s.cancelled && !s.workers[w].flushing
    case CreateReturns(w, _) => w < |s.workers| && s.workers[w].phase.Running? && s.workers[w].phase.job.CreateJob?
    case Enqueue(w) => w < |s.workers| && s.workers[w].phase.Enqueuing? && |s.jobs| < |c.nodes|
    case CheckContext(w) => w < |s.workers| && s.workers[w].phase.Running? && s.workers[w].phase.job.CheckJob?
    case StatusReturns(w, _) => w < |s.workers| && s.workers[w].phase.Querying?
    case Fire(k) => k < |s.timers| && |s.jobs| < |c.nodes|
    case Send(w) => w < |s.workers| && s.workers[w].phase.Sending? && |s.statuses| < |c.nodes|
    // The collector starts once CreateBundle has returned, and stops at the last node.
    case Collect(_) => s.unfed == [] && s.statuses != [] && DoneCount(s.received) < |c.nodes|
    case Cancel => !s.cancelled
  }

  function Move(s: State, w: nat, p: Phase): State
    requires w < |s.workers|
  {
    s.(workers := s.workers[w := s.workers[w].(phase := p)])
  }

  /** What a status check reports. A status that is not done comes with the next check on a timer. */
  function CheckResult(c: Request, n: nat, reply: StatusReply): BundleStatus {
    match reply
    case StatusFailed(err) => BundleStatus(c.id, n, false, Some(CouldNotCheck(err)))
    case StatusIs(status) => BundleStatus(c.id, n, IsFinished(status), None)
  }

  function Next(c: Request, s: State, e: Event): State
    requires Enabled(c, s, e)
  {
    match e
    case Feed =>
      s.(unfed := s.unfed[1..], jobs := s.jobs + [CreateJob(s.unfed[0])])
    case Take(w) =>
      Move(s, w, Running(s.jobs[0])).(jobs := s.jobs[1..])
    case EnterFlush(w) =>
      s.(workers := s.workers[w := Worker(true, Waiting)])
    case CreateReturns(w, err) =>
      var n := s.workers[w].phase.job.node;
      if err.Some? then
        Move(s, w, Sending(BundleStatus(c.id, n, true, Some(CouldNotCreate(err.value)))))
      else
        Move(s, w, Enqueuing(n))
    case Enqueue(w) =>
      var n := s.workers[w].phase.node;
      Move(s, w, Sending(BundleStatus(c.id, n, false, None))).(jobs := s.jobs + [CheckJob(n)])
    case CheckContext(w) =>
      var n := s.workers[w].phase.job.node;
      if s.cancelled then
        Move(s, w, Sending(BundleStatus(c.id, n, true, Some(ContextFinished))))
      else
        Move(s, w, Querying(n))
    case StatusReturns(w, reply) =>
      var n := s.workers[w].phase.node;
      var b := CheckResult(c, n, reply);
      Move(s, w, Sending(b)).(timers := if b.done then s.timers else s.timers + [n])
    case Fire(k) =>
      s.(timers := s.timers[..k] + s.timers[k + 1..], jobs := s.jobs + [CheckJob(s.timers[k])])
    case Send(w) =>
      Move(s, w, Waiting).(statuses := s.statuses + [s.workers[w].phase.status])
    case Collect(fetch) =>
      s.(statuses := s.statuses[1..], received := s.received + [Arrival(s.statuses[0], fetch)])
    case Cancel =>
      s.(cancelled := true)
  }

  /** `es` is a possible sequence of events from `s`. */
  predicate Run(c: Request, s: State, es: seq<Event>)
    decreases |es|
  {
    es == [] || (Enabled(c, s, es[0]) && Run(c, Next(c, s, es[0]), es[1..]))
  }

  function After(c: Request, s: State, es: seq<Event>): State
    requires Run(c, s, es)
    decreases |es|
  {
    if es == [] then s else After(c, Next(c, s, es[0]), es[1..])
  }

  // ---------------------------------------------------------------- tokens

  /** Selects one node. */
  function Only(i: nat): nat -> bool { n => n == i }

  function All(): nat -> bool { _ => true }

  function NodeToken(p: nat -> bool): nat -> nat {
    n => if p(n) then 1 else 0
  }

  function JobToken(p: nat -> bool): Job -> nat {
    (j: Job) => if p(j.node) then 1 else 0
  }

  /** Undone statuses carry no token: the token went on to the job queue or to a timer. */
  function StatusToken(p: nat -> bool): BundleStatus -> nat {
    (b: BundleStatus) => if b.done && p(b.node) then 1 else 0
  }

  function ArrivalToken(p: nat -> bool): Arrival -> nat {
    (a: Arrival) => if a.status.done && p(a.status.node) then 1 else 0
  }

  function PhaseToken(ph: Phase, p: nat -> bool): nat {
    match ph
    case Waiting => 0
    case Running(j) => if p(j.node) then 1 else 0
    case Enqueuing(n) => if p(n) then 1 else 0
    case Querying(n) => if p(n) then 1 else 0
    case Sending(b) => if b.done && p(b.node) then 1 else 0
  }

  function WorkerToken(p: nat -> bool): Worker -> nat {
    (w: Worker) => PhaseToken(w.phase, p)
  }

  /** How many live tokens of the selected nodes the state holds, wherever they are. */
  function Tokens(s: State, p: nat -> bool): nat {
    Sum(s.unfed, NodeToken(p)) + Sum(s.jobs, JobToken(p)) + Sum(s.workers, WorkerToken(p)) +
    Sum(s.timers, NodeToken(p)) + Sum(s.statuses, StatusToken(p)) + Sum(s.received, ArrivalToken(p))
  }

  lemma MoveTokens(s: State, w: nat, ph: Phase, p: nat -> bool)
    requires w < |s.workers|
    ensures Sum(Move(s, w, ph).workers, WorkerToken(p)) + PhaseToken(s.workers[w].phase, p)
         == Sum(s.workers, WorkerToken(p)) + PhaseToken(ph, p)
  {
    SumSet(s.workers, w, s.workers[w].(phase := ph), WorkerToken(p));
  }

  lemma TakeConserves(c: Request, s: State, w: nat, p: nat -> bool)
    requires Enabled(c, s, Take(w))
    ensures Tokens(Next(c, s, Take(w)), p) == Tokens(s, p)
  {
    MoveTokens(s, w, Running(s.jobs[0]), p);
  }

  lemma EnterFlushConserves(c: Request, s: State, w: nat, p: nat -> bool)
    requires Enabled(c, s, EnterFlush(w))
    ensures Tokens(Next(c, s, EnterFlush(w)), p) == Tokens(s, p)
  {
    SumSet(s.workers, w, Worker(true, Waiting), WorkerToken(p));
  }

  lemma CreateReturnsConserves(c: Request, s: State, w: nat, err: Option<string>, p: nat -> bool)
    requires Enabled(c, s, CreateReturns(w, err))
    ensures Tokens(Next(c, s, CreateReturns(w, err)), p) == Tokens(s, p)
  {
    MoveTokens(s, w, Next(c, s, CreateReturns(w, err)).workers[w].phase, p);
  }

  lemma EnqueueConserves(c: Request, s: State, w: nat, p: nat -> bool)
    requires Enabled(c, s, Enqueue(w))
    ensures Tokens(Next(c, s, Enqueue(w)), p) == Tokens(s, p)
  {
    MoveTokens(s, w, Next(c, s, Enqueue(w)).workers[w].phase, p);
    SumAppend(s.jobs, CheckJob(s.workers[w].phase.node), JobToken(p));
  }

  lemma CheckContextConserves(c: Request, s: State, w: nat, p: nat -> bool)
    requires Enabled(c, s, CheckContext(w))
    ensures Tokens(Next(c, s, CheckContext(w)), p) == Tokens(s, p)
  {
    MoveTokens(s, w, Next(c, s, CheckContext(w)).workers[w].phase, p);
  }

  lemma StatusReturnsConserves(c: Request, s: State, w: nat, r: StatusReply, p: nat -> bool)
    requires Enabled(c, s, StatusReturns(w, r))
    ensures Tokens(Next(c, s, StatusReturns(w, r)), p) == Tokens(s, p)
  {
    var n := s.workers[w].phase.node;
    MoveTokens(s, w, Sending(CheckResult(c, n, r)), p);
    SumAppend(s.timers, n, NodeToken(p));
  }

  lemma SendConserves(c: Request, s: State, w: nat, p: nat -> bool)
    requires Enabled(c, s, Send(w))
    ensures Tokens(Next(c, s, Send(w)), p) == Tokens(s, p)
  {
    MoveTokens(s, w, Waiting, p);
    SumAppend(s.statuses, s.workers[w].phase.status, StatusToken(p));
  }

  /** No event creates, loses or duplicates a token of any node. */
  lemma StepConserves(c: Request, s: State, e: Event, p: nat -> bool)
    requires Enabled(c, s, e)
    ensures Tokens(Next(c, s, e), p) == Tokens(s, p)
  {
    match e
    case Feed => SumAppend(s.jobs, CreateJob(s.unfed[0]), JobToken(p));
    case Take(w) => TakeConserves(c, s, w, p);
    case EnterFlush(w) => EnterFlushConserves(c, s, w, p);
    case CreateReturns(w, err) => CreateReturnsConserves(c, s, w, err, p);
    case Enqueue(w) => EnqueueConserves(c, s, w, p);
    case CheckContext(w) => CheckContextConserves(c, s, w, p);
    case StatusReturns(w, r) => StatusReturnsConserves(c, s, w, r, p);
    case Fire(k) =>
      SumRemove(s.timers, k, NodeToken(p));
      SumAppend(s.jobs, CheckJob(s.timers[k]), JobToken(p));
    case Send(w) => SendConserves(c, s, w, p);
    case Collect(f) => SumAppend(s.received, Arrival(s.statuses[0], f), ArrivalToken(p));
    case Cancel =>
  }

  lemma {:induction false} RunConserves(c: Request, s: State, es: seq<Event>, p: nat -> bool)
    requires Run(c, s, es)
    ensures Tokens(After(c, s, es), p) == Tokens(s, p)
    decreases |es|
  {
    if es != [] {
      StepConserves(c, s, es[0], p);
      RunConserves(c, Next(c, s, es[0]), es[1..], p);
    }
  }

  lemma {:induction false} IdleHoldNoToken(ws: seq<Worker>, p: nat -> bool)
    requires forall w :: w in ws ==> w.phase.Waiting?
    ensures Sum(ws, WorkerToken(p)) == 0
  {
    if ws != [] {
      assert ws[0] in ws;
      IdleHoldNoToken(ws[1..], p);
    }
  }

  lemma {:induction false} RangeTokens(n: nat, i: nat)
    ensures Sum(Range(n), NodeToken(All())) == n
    ensures Sum(Range(n), NodeToken(Only(i))) == if i < n then 1 else 0
  {
    if n > 0 {
      RangeTokens(n - 1, i);
      SumAppend<nat>(Range(n - 1), n - 1, NodeToken(All()));
      SumAppend<nat>(Range(n - 1), n - 1, NodeToken(Only(i)));
    }
  }

  /** In every interleaving each node owns exactly one live token. */
  lemma TokenOwnership(c: Request, es: seq<Event>, i: nat)
    requires Run(c, Init(c), es) && i < |c.nodes|
    ensures Tokens(After(c, Init(c), es), Only(i)) == 1
    ensures Tokens(After(c, Init(c), es), All()) == |c.nodes|
  {
    InitialTokens(c, es, i);
  }

  lemma InitialTokens(c: Request, es: seq<Event>, i: nat)
    requires Run(c, Init(c), es)
    ensures Tokens(After(c, Init(c), es), All()) == |c.nodes|
    ensures Tokens(After(c, Init(c), es), Only(i)) == if i < |c.nodes| then 1 else 0
  {
    RangeTokens(|c.nodes|, i);
    IdleHoldNoToken(Init(c).workers, All());
    IdleHoldNoToken(Init(c).workers, Only(i));
    RunConserves(c, Init(c), es, All());
    RunConserves(c, Init(c), es, Only(i));
  }
}
