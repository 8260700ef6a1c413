/** Completion of the deprecated job, and what its bundle contains. */
module FetcherPoolProgress {
  import opened Sums
  import opened FetcherPool

  function One(): Fetch -> nat { _ => 1 }

  function IsGone(): Fetcher -> nat {
    (f: Fetcher) => if f.phase.Gone? then 1 else 0
  }

  /** What every event keeps. The last three lines hold while the context is open. */
  ghost predicate Inv(j: Job, s: State) {
    && |s.pool| == j.fetchers
    && |s.gathered| == Sum(s.pool, IsGone())
    && |s.updates| <= |j.requests|
    && (!s.cancelled ==>
          && Owed(s, One()) == |j.requests|
          && (s.gathering ==> |s.updates| == |j.requests|)
          && (forall w :: 0 <= w < |s.pool| && (s.pool[w].phase.Closed? || s.pool[w].phase.Gone?) ==> s.queue == []))
  }

  lemma {:induction false} SumOne(s: seq<Fetch>)
    ensures Sum(s, One()) == |s|
  {
    if s != [] {
      SumOne(s[1..]);
    }
  }

  lemma InitInv(j: Job)
    ensures Inv(j, Init(j))
  {
    IdleHold(Init(j).pool, IsGone());
    OwedFromStart(j, [], One());
    SumOne(j.requests);
  }

  lemma StepKeepsInv(j: Job, s: State, e: Event)
    requires Inv(j, s) && Enabled(j, s, e)
    ensures Inv(j, Next(j, s, e))
  {
    StepOwes(j, s, e, One());
    if !e.Leave? && !e.Cancel? {
      SumSet(s.pool, e.w, Next(j, s, e).pool[e.w], IsGone());
    }
  }

  lemma {:induction false} RunKeepsInv(j: Job, s: State, es: seq<Event>)
    requires Inv(j, s) && Run(j, s, es)
    ensures Inv(j, After(j, s, es))
    decreases |es|
  {
    if es != [] {
      StepKeepsInv(j, s, es[0]);
      RunKeepsInv(j, Next(j, s, es[0]), es[1..]);
    }
  }

  // ---------------------------------------------------------------- termination

  function PhaseWork(p: Phase): nat {
    match p
    case Idle => 2
    case Fetching(_) => 4
    case Sending(_) => 3
    case Closed => 1
    case Gone => 0
  }

  function FetcherWork(): Fetcher -> nat {
    (f: Fetcher) => PhaseWork(f.phase)
  }

  function Work(s: State): nat {
    3 * |s.queue| + Sum(s.pool, FetcherWork()) + (if s.gathering then 0 else 1) + (if s.cancelled then 0 else 1)
  }

  lemma StepWorks(j: Job, s: State, e: Event)
    requires Enabled(j, s, e)
    ensures Work(Next(j, s, e)) < Work(s)
  {
    if !e.Leave? && !e.Cancel? {
      SumSet(s.pool, e.w, Next(j, s, e).pool[e.w], FetcherWork());
    }
  }

  lemma {:induction false} RunWorks(j: Job, s: State, es: seq<Event>)
    requires Run(j, s, es)
    ensures |es| + Work(After(j, s, es)) <= Work(s)
    decreases |es|
  {
    if es != [] {
      StepWorks(j, s, es[0]);
      RunWorks(j, Next(j, s, es[0]), es[1..]);
    }
  }

  lemma {:induction false} IdleWork(pool: seq<Fetcher>)
    requires forall f :: f in pool ==> f.phase.Idle?
    ensures Sum(pool, FetcherWork()) == 2 * |pool|
  {
    if pool != [] {
      assert pool[0] in pool;
      IdleWork(pool[1..]);
    }
  }

  /** Every run, cancelled or not, has at most 3 R + 2 W + 2 events. */
  lemma RunsEnd(j: Job, es: seq<Event>)
    requires Run(j, Init(j), es)
    ensures |es| <= 3 * |j.requests| + 2 * j.fetchers + 2
  {
    IdleWork(Init(j).pool);
    RunWorks(j, Init(j), es);
  }

  // ---------------------------------------------------------------- deadlock

  lemma {:induction false} AllGone(pool: seq<Fetcher>)
    ensures Sum(pool, IsGone()) <= |pool|
    ensures Sum(pool, IsGone()) == |pool| ==> forall k :: 0 <= k < |pool| ==> pool[k].phase.Gone?
  {
    if pool != [] {
      AllGone(pool[1..]);
      assert forall k :: 1 <= k < |pool| ==> pool[k] == pool[1..][k - 1];
    }
  }

  lemma {:induction false} NotAllGone(pool: seq<Fetcher>) returns (w: nat)
    requires Sum(pool, IsGone()) < |pool|
    ensures w < |pool| && !pool[w].phase.Gone?
  {
    if !pool[0].phase.Gone? {
      w := 0;
    } else {
      var k := NotAllGone(pool[1..]);
      w := k + 1;
    }
  }

  /** The event that continues fetcher w. */
  function Continue(s: State, w: nat): Event
    requires w < |s.pool|
  {
    match s.pool[w].phase
    case Idle => if s.queue == [] then Drain(w) else Take(w)
    case Fetching(_) => FetchReturns(w)
    case Sending(_) => Report(w)
    case Closed => Gather(w)
    case Gone => Leave
  }

  /** An uncancelled job with at least one fetcher, or with nothing to fetch, can always go on until it is complete. */
  lemma StepAvailable(j: Job, s: State) returns (e: Event)
    requires Inv(j, s) && !s.cancelled && !Complete(j, s)
    requires j.fetchers >= 1 || j.requests == []
    ensures e != Cancel && Enabled(j, s, e)
  {
    SumOne(s.queue);
    SumOne(s.updates);
    AllGone(s.pool);
    if s.gathering {
      var w := NotAllGone(s.pool);
      if s.pool[w].phase.Fetching? || s.pool[w].phase.Sending? {
        SumRemove(s.pool, w, OwedBy(One()));
        assert false;
      }
      e := Continue(s, w);
    } else if |s.updates| == |j.requests| {
      e := Leave;
    } else if Sum(s.pool, OwedBy(One())) > 0 {
      var w := SumFind(s.pool, OwedBy(One()));
      e := Continue(s, w);
    } else {
      assert s.queue != [];
      e := Continue(s, 0);
    }
  }

  lemma NoDeadlock(j: Job, es: seq<Event>) returns (e: Event)
    requires Run(j, Init(j), es) && !After(j, Init(j), es).cancelled && !Complete(j, After(j, Init(j), es))
    requires j.fetchers >= 1 || j.requests == []
    ensures e != Cancel && Enabled(j, After(j, Init(j), es), e)
  {
    InitInv(j);
    RunKeepsInv(j, Init(j), es);
    e := StepAvailable(j, After(j, Init(j), es));
  }

  /** Without fetchers a job that has something to fetch waits until its context ends, and is then complete. */
  lemma NoFetchersWaitForCancel(j: Job, es: seq<Event>)
    requires j.fetchers == 0 && j.requests != []
    ensures Run(j, Init(j), es) <==> es <= [Cancel, Leave]
    ensures Run(j, Init(j), es) ==> (Complete(j, After(j, Init(j), es)) <==> es == [Cancel, Leave])
  {
    var cancelled := Next(j, Init(j), Cancel);
    var left := Next(j, cancelled, Leave);
    assert forall e :: Enabled(j, Init(j), e) <==> e == Cancel;
    assert forall e :: Enabled(j, cancelled, e) <==> e == Leave;
    assert forall e :: !Enabled(j, left, e);
    if es != [] && es[0] == Cancel {
      if |es| > 1 && es[1] == Leave {
        assert es[1..][1..] == es[2..];
        assert Run(j, left, es[2..]) <==> es[2..] == [];
        assert es[2..] == [] <==> es == [Cancel, Leave];
        assert Run(j, cancelled, es[1..]) <==> Run(j, left, es[2..]);
        if es[2..] == [] {
          assert After(j, cancelled, es[1..]) == After(j, left, es[2..]) == left;
        }
      }
    }
  }

  /** A fetcher has committed to its status update. */
  ghost predicate SomeSending(s: State) {
    exists w :: 0 <= w < |s.pool| && s.pool[w].phase.Sending?
  }

  ghost predicate NobodySends(s: State) {
    s.gathering && (s.cancelled || forall w :: 0 <= w < |s.pool| ==> !s.pool[w].phase.Fetching?) && !SomeSending(s)
  }

  /** Once the waiter has left, a fetcher that offers an update does so for ever. */
  lemma {:induction false} SendingStays(j: Job, s: State, es: seq<Event>, w: nat)
    requires Run(j, s, es) && s.gathering && w < |s.pool| && s.pool[w].phase.Sending?
    ensures w < |After(j, s, es).pool| && After(j, s, es).pool[w].phase.Sending?
    decreases |es|
  {
    if es != [] {
      SendingStays(j, Next(j, s, es[0]), es[1..], w);
    }
  }

  lemma StepNobodySends(j: Job, s: State, e: Event)
    requires Enabled(j, s, e) && NobodySends(s) && (!s.cancelled ==> s.queue == [])
    ensures NobodySends(Next(j, s, e)) && (!Next(j, s, e).cancelled ==> Next(j, s, e).queue == [])
  {
  }

  lemma {:induction false} NobodySendsStays(j: Job, s: State, es: seq<Event>)
    requires Run(j, s, es) && NobodySends(s) && (!s.cancelled ==> s.queue == [])
    ensures NobodySends(After(j, s, es))
    decreases |es|
  {
    if es != [] {
      StepNobodySends(j, s, es[0]);
      NobodySendsStays(j, Next(j, s, es[0]), es[1..]);
    }
  }

  /** Before a waiter with all its updates leaves, every request is done with. */
  lemma LeaverOwesNothing(j: Job, s: State)
    requires Inv(j, s) && Enabled(j, s, Leave) && !s.cancelled
    ensures s.queue == [] && forall w :: 0 <= w < |s.pool| ==> !s.pool[w].phase.Fetching? && !s.pool[w].phase.Sending?
  {
    SumOne(s.queue);
    SumOne(s.updates);
    forall w | 0 <= w < |s.pool| ensures !s.pool[w].phase.Fetching? && !s.pool[w].phase.Sending? {
      SumRemove(s.pool, w, OwedBy(One()));
    }
  }

  lemma GoneIsComplete(j: Job, s: State)
    requires Inv(j, s) && s.gathering
    ensures Complete(j, s) <==> forall w :: 0 <= w < |s.pool| ==> s.pool[w].phase.Gone?
  {
    AllGone(s.pool);
    if Sum(s.pool, IsGone()) < |s.pool| {
      var w := NotAllGone(s.pool);
    }
  }

  /**
    Whether a job completes is decided when its waiter leaves: a run that has come to its end after that is
    complete exactly when no fetcher was offering a status update at that moment.
   */
  lemma CompletesWhen(j: Job, es: seq<Event>, more: seq<Event>)
    requires Run(j, Init(j), es) && Enabled(j, After(j, Init(j), es), Leave)
    requires Run(j, Next(j, After(j, Init(j), es), Leave), more)
    requires forall e :: !Enabled(j, After(j, Next(j, After(j, Init(j), es), Leave), more), e)
    ensures Complete(j, After(j, Next(j, After(j, Init(j), es), Leave), more)) <==> !SomeSending(After(j, Init(j), es))
  {
    var s := After(j, Init(j), es);
    var left := Next(j, s, Leave);
    var t := After(j, left, more);
    InitInv(j);
    RunKeepsInv(j, Init(j), es);
    StepKeepsInv(j, s, Leave);
    RunKeepsInv(j, left, more);
    if w :| 0 <= w < |s.pool| && s.pool[w].phase.Sending? {
      SendingStays(j, left, more, w);
      GatheringStays(j, left, more);
      GoneIsComplete(j, t);
    } else {
      if !s.cancelled {
        LeaverOwesNothing(j, s);
      }
      NobodySendsStays(j, left, more);
      EndIsComplete(j, t);
    }
  }

  lemma EndIsComplete(j: Job, s: State)
    requires Inv(j, s) && NobodySends(s) && forall e :: !Enabled(j, s, e)
    ensures Complete(j, s)
  {
    assert !Enabled(j, s, Cancel);
    GoneIsComplete(j, s);
    forall w | 0 <= w < |s.pool| ensures s.pool[w].phase.Gone? {
      assert !Enabled(j, s, Quit(w)) && !Enabled(j, s, FetchReturns(w));
      GatherReady(j, s, w);
    }
  }

  lemma {:induction false} GatheringStays(j: Job, s: State, es: seq<Event>)
    requires Run(j, s, es) && s.gathering
    ensures After(j, s, es).gathering
    decreases |es|
  {
    if es != [] {
      GatheringStays(j, Next(j, s, es[0]), es[1..]);
    }
  }

  lemma GatherReady(j: Job, s: State, w: nat)
    requires Inv(j, s) && s.gathering && w < |s.pool| && !Enabled(j, s, Gather(w))
    ensures !s.pool[w].phase.Closed?
  {
    AllGone(s.pool);
  }

  /** One request, one fetcher: take, answer, cancel, and the waiter leaves before the update is received. */
  lemma CancelledJobCanHang(f: Fetch)
    ensures var j := Job([f], 1);
            var es := [Take(0), FetchReturns(0), Cancel, Leave];
            && Run(j, Init(j), es)
            && !Complete(j, After(j, Init(j), es)) && forall e :: !Enabled(j, After(j, Init(j), es), e)
  {
    var j := Job([f], 1);
    var s1 := Next(j, Init(j), Take(0));
    var s2 := Next(j, s1, FetchReturns(0));
    var s3 := Next(j, s2, Cancel);
    var s4 := Next(j, s3, Leave);
    assert s4.pool[0].phase == Sending(f);
    assert Run(j, s4, []) && Run(j, s3, [Leave]) && Run(j, s2, [Cancel, Leave]);
    assert Run(j, s1, [FetchReturns(0), Cancel, Leave]);
    assert [Take(0), FetchReturns(0), Cancel, Leave][1..] == [FetchReturns(0), Cancel, Leave];
    assert [FetchReturns(0), Cancel, Leave][1..] == [Cancel, Leave] && [Cancel, Leave][1..] == [Leave];
    assert After(j, s2, [Cancel, Leave]) == s4;
  }

  // ---------------------------------------------------------------- contents of the bundle

  function GoneOf(f: Fetcher, p: Fetch -> nat): nat {
    if f.phase.Gone? then Sum(f.zip, p) else 0
  }

  function GoneBy(p: Fetch -> nat): Fetcher -> nat {
    (f: Fetcher) => GoneOf(f, p)
  }

  lemma StepDelivers(j: Job, s: State, e: Event, p: Fetch -> nat)
    requires Enabled(j, s, e) && Sum(s.bundle, p) == Sum(s.pool, GoneBy(p))
    ensures var t := Next(j, s, e); Sum(t.bundle, p) == Sum(t.pool, GoneBy(p))
  {
    if !e.Leave? && !e.Cancel? {
      SumSet(s.pool, e.w, Next(j, s, e).pool[e.w], GoneBy(p));
      if e.Gather? {
        SumConcat(s.bundle, s.pool[e.w].zip, p);
      }
    }
  }

  lemma {:induction false} RunDelivers(j: Job, s: State, es: seq<Event>, p: Fetch -> nat)
    requires Run(j, s, es) && Sum(s.bundle, p) == Sum(s.pool, GoneBy(p))
    ensures var t := After(j, s, es); Sum(t.bundle, p) == Sum(t.pool, GoneBy(p))
    decreases |es|
  {
    if es != [] {
      StepDelivers(j, s, es[0], p);
      RunDelivers(j, Next(j, s, es[0]), es[1..], p);
    }
  }

  /** In every run, cancelled or not, the bundle holds no more than the requested data, nothing twice. */
  lemma BundleNoMore(j: Job, es: seq<Event>, p: Fetch -> nat)
    requires Run(j, Init(j), es)
    ensures Sum(After(j, Init(j), es).bundle, p) <= Sum(j.requests, p)
  {
    var s := After(j, Init(j), es);
    IdleHold(Init(j).pool, GoneBy(p));
    RunDelivers(j, Init(j), es, p);
    HeldFromStart(j, es, p);
    SumBound(s.pool, GoneBy(p), HeldBy(p));
  }

  /** A complete uncancelled job has fetched each request once and received one update for each. */
  lemma CompleteCounts(j: Job, es: seq<Event>, p: Fetch -> nat)
    requires Run(j, Init(j), es) && Complete(j, After(j, Init(j), es)) && !After(j, Init(j), es).cancelled
    requires j.fetchers >= 1 || j.requests == []
    ensures var s := After(j, Init(j), es);
            Sum(s.bundle, p) == Sum(j.requests, p) && Sum(s.updates, p) == Sum(j.requests, p)
  {
    var s := After(j, Init(j), es);
    InitInv(j);
    RunKeepsInv(j, Init(j), es);
    AllGone(s.pool);
    IdleHold(Init(j).pool, GoneBy(p));
    RunDelivers(j, Init(j), es, p);
    HeldFromStart(j, es, p);
    OwedFromStart(j, es, p);
    if s.pool != [] {
      assert s.pool[0].phase.Gone? && s.queue == [];
    } else {
      BundleNoMore(j, es, p);
    }
    IdleHold(s.pool, OwedBy(p));
    SumBound(s.pool, GoneBy(p), HeldBy(p));
    SumBound(s.pool, HeldBy(p), GoneBy(p));
  }
}
