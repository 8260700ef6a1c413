/** The handshake between requests for fresh health data and the puller loop, over two unbuffered channels. */
module Refresh {
  import opened Sums

  /** Pulling(true) and Announcing serve a request; the interval timer starts the other pulls. */
  datatype Puller = Selecting | Pulling(requested: bool) | Announcing

  /** `since` is the number of pulls begun when the signal was accepted, `seen` the pulls completed at the answer. */
  datatype Requester = Signalling | Awaiting(since: nat) | Served(since: nat, seen: nat) | TimedOut

  datatype State = State(puller: Puller, begun: nat, completed: nat, requesters: seq<Requester>)

  datatype Event =
    | Arrive
    | Accept(r: nat)               // the signal is handed over and a pull begins
    | Timer                        // the interval ends and a pull begins
    | PullEnds
    | Announce(r: nat)             // the done signal is handed over
    | Timeout(r: nat)              // the request gives up after a minute

  /** The loop starts with a pull of its own. */
  function Init(): State { State(Pulling(false), 1, 0, []) }

  predicate Enabled(s: State, e: Event) {
    match e
    case Arrive => true
    case Accept(r) => s.puller.Selecting? && r < |s.requesters| && s.requesters[r].Signalling?
    case Timer => s.puller.Selecting?
    case PullEnds => s.puller.Pulling?
    case Announce(r) => s.puller.Announcing? && r < |s.requesters| && s.requesters[r].Awaiting?
    case Timeout(r) => r < |s.requesters| && s.requesters[r].Awaiting?
  }

  function Next(s: State, e: Event): State
    requires Enabled(s, e)
  {
    match e
    case Arrive => s.(requesters := s.requesters + [Signalling])
    case Accept(r) =>
      s.(puller := Pulling(true), begun := s.begun + 1, requesters := s.requesters[r := Awaiting(s.begun)])
    case Timer => s.(puller := Pulling(false), begun := s.begun + 1)
    case PullEnds => s.(puller := if s.puller.requested then Announcing else Selecting, completed := s.completed + 1)
    case Announce(r) =>
      s.(puller := Selecting, requesters := s.requesters[r := Served(s.requesters[r].since, s.completed)])
    case Timeout(r) => s.(requesters := s.requesters[r := TimedOut])
  }

  predicate Run(s: State, es: seq<Event>)
    decreases |es|
  {
    es == [] || (Enabled(s, es[0]) && Run(Next(s, es[0]), es[1..]))
  }

  function After(s: State, es: seq<Event>): State
    requires Run(s, es)
    decreases |es|
  {
    if es == [] then s else After(Next(s, es[0]), es[1..])
  }

  predicate Serving(s: State) { s.puller == Pulling(true) || s.puller == Announcing }

  function Waits(): Requester -> nat { (r: Requester) => if r.Awaiting? then 1 else 0 }

  function Waiters(s: State): nat { Sum(s.requesters, Waits()) }

  /** The pull that serves a waiting request is the latest one, and no waiting or served request saw an older one. */
  ghost predicate Fresh(s: State, r: Requester) {
    match r
    case Awaiting(since) => Serving(s) && s.begun == since + 1
    case Served(since, seen) => seen >= since + 1
    case _ => true
  }

  ghost predicate Inv(s: State) {
    && s.begun == s.completed + (if s.puller.Pulling? then 1 else 0)
    && Waiters(s) <= (if Serving(s) then 1 else 0)
    && (forall r :: 0 <= r < |s.requesters| ==> Fresh(s, s.requesters[r]))
  }

  lemma StepWaiters(s: State, e: Event)
    requires Enabled(s, e)
    ensures Waiters(Next(s, e)) == Waiters(s) + (if e.Accept? then 1 else if e.Announce? || e.Timeout? then -1 else 0)
  {
    match e
    case Arrive => SumAppend(s.requesters, Signalling, Waits());
    case Accept(r) => SumSet(s.requesters, r, Next(s, e).requesters[r], Waits());
    case Announce(r) => SumSet(s.requesters, r, Next(s, e).requesters[r], Waits());
    case Timeout(r) => SumSet(s.requesters, r, TimedOut, Waits());
    case _ =>
  }

  lemma NoOtherWaiter(s: State, r: nat)
    requires Waiters(s) <= 1 && r < |s.requesters| && s.requesters[r].Awaiting?
    ensures forall k :: 0 <= k < |s.requesters| && k != r ==> !s.requesters[k].Awaiting?
  {
    SumRemove(s.requesters, r, Waits());
    var rest := s.requesters[..r] + s.requesters[r + 1..];
    forall k | 0 <= k < |s.requesters| && k != r ensures !s.requesters[k].Awaiting? {
      var i := if k < r then k else k - 1;
      assert rest[i] == s.requesters[k];
      SumRemove(rest, i, Waits());
    }
  }

  lemma StepKeepsInv(s: State, e: Event)
    requires Inv(s) && Enabled(s, e)
    ensures Inv(Next(s, e))
  {
    StepWaiters(s, e);
    var t := Next(s, e);
    if e.Announce? {
      NoOtherWaiter(s, e.r);
    }
    forall k | 0 <= k < |t.requesters| ensures Fresh(t, t.requesters[k]) {
      if k < |s.requesters| {
        assert Fresh(s, s.requesters[k]);
      }
    }
  }

  lemma {:induction false} RunKeepsInv(s: State, es: seq<Event>)
    requires Inv(s) && Run(s, es)
    ensures Inv(After(s, es))
    decreases |es|
  {
    if es != [] {
      StepKeepsInv(s, es[0]);
      RunKeepsInv(Next(s, es[0]), es[1..]);
    }
  }

  /** In every run at most one request waits, and a request goes on only after a pull that began after its signal. */
  lemma RefreshIsFresh(es: seq<Event>, r: nat)
    requires Run(Init(), es) && r < |After(Init(), es).requesters|
    ensures Waiters(After(Init(), es)) <= 1
    ensures var q := After(Init(), es).requesters[r]; q.Served? ==> q.seen > q.since
  {
    RunKeepsInv(Init(), es);
    assert Fresh(After(Init(), es), After(Init(), es).requesters[r]);
  }

  // ---------------------------------------------------------------- a timeout stops the puller for good

  /** The puller serves a request that is no longer there. */
  ghost predicate Wedged(s: State) { Serving(s) && Waiters(s) == 0 }

  lemma WedgedStep(s: State, e: Event)
    requires Wedged(s) && Enabled(s, e)
    ensures Wedged(Next(s, e)) && Next(s, e).begun == s.begun
  {
    StepWaiters(s, e);
  }

  /** From then on no pull begins any more. */
  lemma {:induction false} WedgedForever(s: State, es: seq<Event>)
    requires Wedged(s) && Run(s, es)
    ensures Wedged(After(s, es)) && After(s, es).begun == s.begun
    decreases |es|
  {
    if es != [] {
      WedgedStep(s, es[0]);
      WedgedForever(Next(s, es[0]), es[1..]);
    }
  }

  ghost predicate HasTimeout(es: seq<Event>) { exists k :: 0 <= k < |es| && es[k].Timeout? }

  ghost predicate Balanced(s: State) { Waiters(s) == if Serving(s) then 1 else 0 }

  /** The puller is wedged exactly when some request has timed out. */
  lemma {:induction false} WedgedWhen(s: State, es: seq<Event>)
    requires Balanced(s) && Inv(s) && Run(s, es)
    ensures Wedged(After(s, es)) <==> HasTimeout(es)
    ensures !HasTimeout(es) ==> Balanced(After(s, es))
    decreases |es|
  {
    if es != [] {
      var e, t := es[0], Next(s, es[0]);
      StepWaiters(s, e);
      StepKeepsInv(s, e);
      if e.Timeout? {
        assert Fresh(s, s.requesters[e.r]);
        WedgedForever(t, es[1..]);
      } else {
        WedgedWhen(t, es[1..]);
        assert forall k :: 0 <= k < |es[1..]| ==> es[1..][k] == es[k + 1];
        assert forall k :: 1 <= k < |es| ==> es[k] == es[1..][k - 1];
      }
    }
  }

  /** How a puller that serves a waiting request, or none, comes to its next pull. */
  lemma NextPull(s: State) returns (more: seq<Event>)
    requires Balanced(s)
    ensures Run(s, more) && After(s, more).begun > s.begun
    decreases match s.puller case Selecting => 0 case Announcing => 1 case Pulling(_) => 2
  {
    match s.puller
    case Selecting =>
      more := [Timer];
      Unroll(s, more);
    case Pulling(requested) =>
      var t := Next(s, PullEnds);
      StepWaiters(s, PullEnds);
      var rest := NextPull(t);
      more := [PullEnds] + rest;
      Unroll(s, more);
    case Announcing =>
      var r := SumFind(s.requesters, Waits());
      var t := Next(s, Announce(r));
      StepWaiters(s, Announce(r));
      var rest := NextPull(t);
      more := [Announce(r)] + rest;
      Unroll(s, more);
  }

  lemma Unroll(s: State, es: seq<Event>)
    requires es != [] && Enabled(s, es[0]) && Run(Next(s, es[0]), es[1..])
    ensures Run(s, es) && After(s, es) == After(Next(s, es[0]), es[1..])
  {
  }

  /** After any run another pull can begin exactly when no request has timed out; otherwise the puller is wedged. */
  lemma PullerStuckWhen(es: seq<Event>)
    requires Run(Init(), es)
    ensures Wedged(After(Init(), es)) <==> HasTimeout(es)
    ensures (exists more :: Run(After(Init(), es), more) && After(After(Init(), es), more).begun > After(Init(), es).begun)
            <==> !HasTimeout(es)
  {
    var s := After(Init(), es);
    WedgedWhen(Init(), es);
    if HasTimeout(es) {
      forall more | Run(s, more) ensures After(s, more).begun == s.begun {
        WedgedForever(s, more);
      }
    } else {
      var more := NextPull(s);
    }
  }
}
