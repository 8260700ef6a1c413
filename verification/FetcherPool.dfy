/**
  The deprecated bundle job: a closed queue of endpoint requests, W fetchers that each write their own
  zip, unbuffered status and result channels, and the job that first waits for the status updates and
  then gathers the zips. Answers of the endpoints are part of the queue: every request comes with the
  reply it will get.
 */
module FetcherPool {
  import opened Common
  import opened Sums

  datatype EndpointRequest = EndpointRequest(url: string, ip: string, role: string, fileName: string, optional: bool)

  /** What happens when a request is made: the GET fails, the zip entry cannot be created, or bytes are copied. */
  datatype Reply = Refused(err: string) | NotCreated(err: string) | Copied(gzip: bool, data: Bytes, copyErr: Option<string>)

  datatype Fetch = Fetch(req: EndpointRequest, reply: Reply)

  /** Closed: the zip is closed and its path is offered on the result channel. Gone: the path was taken. */
  datatype Phase = Idle | Fetching(f: Fetch) | Sending(f: Fetch) | Closed | Gone

  /** `zip` lists the requests whose replies the fetcher has written, in order. */
  datatype Fetcher = Fetcher(phase: Phase, zip: seq<Fetch>)

  datatype Job = Job(requests: seq<Fetch>, fetchers: nat)

  datatype State = State(
    queue: seq<Fetch>,
    pool: seq<Fetcher>,
    updates: seq<Fetch>,       // requests whose status update the waiter has received
    gathering: bool,           // the waiter has returned and results are gathered
    gathered: seq<nat>,        // fetchers whose zip was received, in order
    bundle: seq<Fetch>,        // contents of the received zips, one after the other
    cancelled: bool)

  datatype Event =
    | Take(w: nat)
    | Drain(w: nat)            // the queue is closed and empty
    | Quit(w: nat)             // the context is done
    | FetchReturns(w: nat)
    | Report(w: nat)           // a status update is handed over
    | Leave                    // the waiter returns
    | Gather(w: nat)           // a zip is handed over
    | Cancel

  function Init(j: Job): State {
    State(j.requests, seq(j.fetchers, _ => Fetcher(Idle, [])), [], false, [], [], false)
  }

  predicate Enabled(j: Job, s: State, e: Event) {
    match e
    case Take(w) => w < |s.pool| && s.pool[w].phase.Idle? && s.queue != []
    case Drain(w) => w < |s.pool| && s.pool[w].phase.Idle? && s.queue == []
    case Quit(w) => w < |s.pool| && s.pool[w].phase.Idle? && s.cancelled
    case FetchReturns(w) => w < |s.pool| && s.pool[w].phase.Fetching?
    case Report(w) => w < |s.pool| && s.pool[w].phase.Sending? && !s.gathering && |s.updates| < |j.requests|
    case Leave => !s.gathering && (s.cancelled || |s.updates| == |j.requests|)
    case Gather(w) => w < |s.pool| && s.pool[w].phase.Closed? && s.gathering && |s.gathered| < j.fetchers
    case Cancel => !s.cancelled
  }

  function Move(s: State, w: nat, f: Fetcher): State
    requires w < |s.pool|
  {
    s.(pool := s.pool[w := f])
  }

  function Next(j: Job, s: State, e: Event): State
    requires Enabled(j, s, e)
  {
    match e
    case Take(w) => Move(s, w, s.pool[w].(phase := Fetching(s.queue[0]))).(queue := s.queue[1..])
    case Drain(w) => Move(s, w, s.pool[w].(phase := Closed))
    case Quit(w) => Move(s, w, s.pool[w].(phase := Closed))
    case FetchReturns(w) =>
      var f := s.pool[w].phase.f;
      Move(s, w, Fetcher(if s.cancelled then Closed else Sending(f), s.pool[w].zip + [f]))
    case Report(w) => Move(s, w, s.pool[w].(phase := Idle)).(updates := s.updates + [s.pool[w].phase.f])
    case Leave => s.(gathering := true)
    case Gather(w) =>
      Move(s, w, s.pool[w].(phase := Gone)).(gathered := s.gathered + [w], bundle := s.bundle + s.pool[w].zip)
    case Cancel => s.(cancelled := true)
  }

  predicate Run(j: Job, s: State, es: seq<Event>)
    decreases |es|
  {
    es == [] || (Enabled(j, s, es[0]) && Run(j, Next(j, s, es[0]), es[1..]))
  }

  function After(j: Job, s: State, es: seq<Event>): State
    requires Run(j, s, es)
    decreases |es|
  {
    if es == [] then s else After(j, Next(j, s, es[0]), es[1..])
  }

  predicate Complete(j: Job, s: State) {
    s.gathering && |s.gathered| == j.fetchers
  }

  // ---------------------------------------------------------------- written replies

  /** What a fetcher holds of the selected requests: the one in flight and those in its zip. */
  function HeldOf(f: Fetcher, p: Fetch -> nat): nat {
    Sum(f.zip, p) + if f.phase.Fetching? then p(f.phase.f) else 0
  }

  function HeldBy(p: Fetch -> nat): Fetcher -> nat {
    (f: Fetcher) => HeldOf(f, p)
  }

  function Held(s: State, p: Fetch -> nat): nat {
    Sum(s.queue, p) + Sum(s.pool, HeldBy(p))
  }

  /** Every request is at all times in the queue, with one fetcher, or in one zip; also when cancelled. */
  lemma StepHolds(j: Job, s: State, e: Event, p: Fetch -> nat)
    requires Enabled(j, s, e)
    ensures Held(Next(j, s, e), p) == Held(s, p)
  {
    if !e.Leave? && !e.Cancel? {
      var w := e.w;
      SumSet(s.pool, w, Next(j, s, e).pool[w], HeldBy(p));
      if e.FetchReturns? {
        SumAppend(s.pool[w].zip, s.pool[w].phase.f, p);
      }
    }
  }

  lemma {:induction false} RunHolds(j: Job, s: State, es: seq<Event>, p: Fetch -> nat)
    requires Run(j, s, es)
    ensures Held(After(j, s, es), p) == Held(s, p)
    decreases |es|
  {
    if es != [] {
      StepHolds(j, s, es[0], p);
      RunHolds(j, Next(j, s, es[0]), es[1..], p);
    }
  }

  lemma {:induction false} IdleHold(pool: seq<Fetcher>, g: Fetcher -> nat)
    requires forall f :: f in pool ==> g(f) == 0
    ensures Sum(pool, g) == 0
  {
    if pool != [] {
      assert pool[0] in pool;
      IdleHold(pool[1..], g);
    }
  }

  lemma HeldFromStart(j: Job, es: seq<Event>, p: Fetch -> nat)
    requires Run(j, Init(j), es)
    ensures Held(After(j, Init(j), es), p) == Sum(j.requests, p)
  {
    assert HeldOf(Fetcher(Idle, []), p) == 0;
    IdleHold(Init(j).pool, HeldBy(p));
    RunHolds(j, Init(j), es, p);
  }

  // ---------------------------------------------------------------- status updates

  function OwedOf(ph: Phase, p: Fetch -> nat): nat {
    match ph
    case Fetching(f) => p(f)
    case Sending(f) => p(f)
    case _ => 0
  }

  function OwedBy(p: Fetch -> nat): Fetcher -> nat {
    (f: Fetcher) => OwedOf(f.phase, p)
  }

  /** Requests with an update still to come or already received. */
  function Owed(s: State, p: Fetch -> nat): nat {
    Sum(s.queue, p) + Sum(s.pool, OwedBy(p)) + Sum(s.updates, p)
  }

  lemma StepOwes(j: Job, s: State, e: Event, p: Fetch -> nat)
    requires Enabled(j, s, e)
    ensures Owed(Next(j, s, e), p) <= Owed(s, p)
    ensures !s.cancelled ==> Owed(Next(j, s, e), p) == Owed(s, p)
  {
    if !e.Leave? && !e.Cancel? {
      var w := e.w;
      SumSet(s.pool, w, Next(j, s, e).pool[w], OwedBy(p));
      if e.Report? {
        SumAppend(s.updates, s.pool[w].phase.f, p);
      }
    }
  }

  lemma {:induction false} RunOwes(j: Job, s: State, es: seq<Event>, p: Fetch -> nat)
    requires Run(j, s, es)
    ensures Owed(After(j, s, es), p) <= Owed(s, p)
    ensures !After(j, s, es).cancelled ==> !s.cancelled && Owed(After(j, s, es), p) == Owed(s, p)
    decreases |es|
  {
    if es != [] {
      StepOwes(j, s, es[0], p);
      RunOwes(j, Next(j, s, es[0]), es[1..], p);
    }
  }

  lemma OwedFromStart(j: Job, es: seq<Event>, p: Fetch -> nat)
    requires Run(j, Init(j), es)
    ensures Owed(After(j, Init(j), es), p) <= Sum(j.requests, p)
    ensures !After(j, Init(j), es).cancelled ==> Owed(After(j, Init(j), es), p) == Sum(j.requests, p)
  {
    IdleHold(Init(j).pool, OwedBy(p));
    RunOwes(j, Init(j), es, p);
  }

  // ---------------------------------------------------------------- order

  /** Requests are taken in the order of the queue, and nothing is put back. */
  lemma {:induction false} QueueInOrder(j: Job, s: State, es: seq<Event>)
    requires Run(j, s, es)
    ensures |After(j, s, es).queue| <= |s.queue|
    ensures After(j, s, es).queue == s.queue[|s.queue| - |After(j, s, es).queue|..]
    decreases |es|
  {
    if es != [] {
      QueueInOrder(j, Next(j, s, es[0]), es[1..]);
    }
  }
}
