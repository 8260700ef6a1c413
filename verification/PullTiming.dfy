/** The round of the health puller with times: when pulls start, and when the round is over. Times are in seconds. */
module PullTiming {
  import opened Common
  import opened Sums
  import opened PullRound

  /** A token in use, from the moment it is taken to the moment it is returned. */
  datatype Pull = Pull(host: nat, start: real, end: Option<real>)

  /** A state of the round, the time, and the pulls so far in the order of their starts. */
  datatype Timed = Timed(s: State, now: real, log: seq<Pull>)

  datatype Tick = Wait(until: real) | Do(e: Event)

  function Begin(c: Config): Timed
    requires Usable(c)
  {
    Timed(Init(c), 0.0, [])
  }

  predicate SomeWaiting(s: State) { exists h :: 0 <= h < |s.hosts| && s.hosts[h].Waiting? }

  predicate SomeReturned(s: State) { exists h :: 0 <= h < |s.hosts| && s.hosts[h].Returned? }

  /** No token lies idle while a host waits, finishing takes no time, and no pull outlasts the timeout. */
  predicate CanPass(c: Config, t: Timed, until: real) {
    && t.now <= until
    && !(t.s.free > 0 && SomeWaiting(t.s)) && !SomeReturned(t.s)
    && forall k :: 0 <= k < |t.log| && t.log[k].end.None? ==> until <= t.log[k].start + c.timeout as real
  }

  predicate Possible(c: Config, t: Timed, k: Tick)
    requires Usable(c)
  {
    match k
    case Wait(until) => CanPass(c, t, until)
    case Do(e) => Enabled(c, t.s, e)
  }

  function Closing(p: Pull, h: nat, now: real): Pull {
    if p.host == h && p.end.None? then p.(end := Some(now)) else p
  }

  function Closed(log: seq<Pull>, h: nat, now: real): (r: seq<Pull>)
    ensures |r| == |log| && forall k :: 0 <= k < |log| ==> r[k] == Closing(log[k], h, now)
  {
    if log == [] then [] else [Closing(log[0], h, now)] + Closed(log[1..], h, now)
  }

  function Step(c: Config, t: Timed, k: Tick): Timed
    requires Usable(c) && Possible(c, t, k)
  {
    match k
    case Wait(until) => t.(now := until)
    case Do(e) =>
      Timed(Next(c, t.s, e), t.now,
            match e
            case Acquire(h) => t.log + [Pull(h, t.now, None)]
            case Return(h) => Closed(t.log, h, t.now)
            case _ => t.log)
  }

  predicate TimedRun(c: Config, t: Timed, ks: seq<Tick>)
    requires Usable(c)
    decreases |ks|
  {
    ks == [] || (Possible(c, t, ks[0]) && TimedRun(c, Step(c, t, ks[0]), ks[1..]))
  }

  function Later(c: Config, t: Timed, ks: seq<Tick>): Timed
    requires Usable(c) && TimedRun(c, t, ks)
    decreases |ks|
  {
    if ks == [] then t else Later(c, Step(c, t, ks[0]), ks[1..])
  }

  // ---------------------------------------------------------------- counting pulls

  function Flying(x: real): Pull -> nat {
    (p: Pull) => if p.start <= x && (p.end.None? || x < p.end.value) then 1 else 0
  }

  function Open(): Pull -> nat { (p: Pull) => if p.end.None? then 1 else 0 }

  function OpenOf(h: nat): Pull -> nat { (p: Pull) => if p.host == h && p.end.None? then 1 else 0 }

  function Waits(): Phase -> nat { (p: Phase) => if p.Waiting? then 1 else 0 }

  lemma {:induction false} ClosedCounts(log: seq<Pull>, h: nat, now: real, g: nat)
    ensures Sum(Closed(log, h, now), Open()) + Sum(log, OpenOf(h)) == Sum(log, Open())
    ensures Sum(Closed(log, h, now), OpenOf(g)) == if g == h then 0 else Sum(log, OpenOf(g))
  {
    if log != [] {
      ClosedCounts(log[1..], h, now, g);
      assert Closed(log, h, now)[1..] == Closed(log[1..], h, now);
    }
  }

  lemma {:induction false} ClosedFlying(log: seq<Pull>, h: nat, now: real, x: real)
    requires x < now
    ensures Sum(Closed(log, h, now), Flying(x)) == Sum(log, Flying(x))
  {
    if log != [] {
      ClosedFlying(log[1..], h, now, x);
      assert Closed(log, h, now)[1..] == Closed(log[1..], h, now);
    }
  }

  // ---------------------------------------------------------------- what every tick keeps

  predicate InTime(c: Config, p: Pull, now: real) {
    && 0.0 <= p.start <= now
    && match p.end
       case None => now <= p.start + c.timeout as real
       case Some(end) => p.start <= end <= now && end <= p.start + c.timeout as real
  }

  ghost predicate Ordered(c: Config, t: Timed) {
    && t.now >= 0.0
    && (forall k :: 0 <= k < |t.log| ==> InTime(c, t.log[k], t.now))
    && (forall j, k :: 0 <= j <= k < |t.log| ==> t.log[j].start <= t.log[k].start)
  }

  /** Each token in use belongs to a pull, and each host that does not wait any more has had one. */
  ghost predicate Counted(c: Config, t: Timed)
    requires Usable(c)
  {
    && Inv(c, t.s)
    && Sum(t.log, Open()) == Sum(t.s.hosts, Holds())
    && (forall h: nat :: h < |t.s.hosts| ==> Sum(t.log, OpenOf(h)) == Holds()(t.s.hosts[h]))
    && |t.log| + Sum(t.s.hosts, Waits()) == c.hosts
    && (SomeReturned(t.s) ==> exists k :: 0 <= k < |t.log| && t.log[k].end == Some(t.now))
  }

  ghost predicate FullUntil(c: Config, log: seq<Pull>, until: real)
    requires Usable(c)
  {
    forall x :: 0.0 <= x < until ==> Sum(log, Flying(x)) == Limit(c)
  }

  /** All tokens are in use at any time before a start, and as long as a host waits. */
  ghost predicate Full(c: Config, t: Timed)
    requires Usable(c)
  {
    && (SomeWaiting(t.s) ==> FullUntil(c, t.log, t.now))
    && (forall k :: 0 <= k < |t.log| ==> FullUntil(c, t.log, t.log[k].start))
  }

  ghost predicate Kept(c: Config, t: Timed)
    requires Usable(c)
  {
    Ordered(c, t) && Counted(c, t) && Full(c, t)
  }

  lemma WaitKeepsOrdered(c: Config, t: Timed, until: real)
    requires Ordered(c, t) && CanPass(c, t, until)
    ensures Ordered(c, t.(now := until))
  {
    forall k | 0 <= k < |t.log| ensures InTime(c, t.log[k], until) {
      assert InTime(c, t.log[k], t.now);
    }
  }

  lemma AcquireKeepsOrdered(c: Config, t: Timed, h: nat)
    requires Ordered(c, t)
    ensures Ordered(c, t.(log := t.log + [Pull(h, t.now, None)]))
  {
    var log := t.log + [Pull(h, t.now, None)];
    forall k | 0 <= k < |log| ensures InTime(c, log[k], t.now) {
      if k < |t.log| {
        assert InTime(c, t.log[k], t.now);
      }
    }
    forall j, k | 0 <= j <= k < |log| ensures log[j].start <= log[k].start {
      if j < |t.log| {
        assert InTime(c, t.log[j], t.now);
      }
    }
  }

  lemma ReturnKeepsOrdered(c: Config, t: Timed, h: nat)
    requires Ordered(c, t)
    ensures Ordered(c, t.(log := Closed(t.log, h, t.now)))
  {
    var log := Closed(t.log, h, t.now);
    forall k | 0 <= k < |log| ensures InTime(c, log[k], t.now) && log[k].start == t.log[k].start {
      assert InTime(c, t.log[k], t.now);
    }
  }

  lemma KeepsOrdered(c: Config, t: Timed, k: Tick)
    requires Usable(c) && Ordered(c, t) && Possible(c, t, k)
    ensures Ordered(c, Step(c, t, k))
  {
    match k
    case Wait(until) => WaitKeepsOrdered(c, t, until);
    case Do(e) =>
      match e
      case Acquire(h) => AcquireKeepsOrdered(c, t, h);
      case Return(h) => ReturnKeepsOrdered(c, t, h);
      case _ =>
  }

  lemma HostCounts(c: Config, s: State, e: Event)
    requires Usable(c) && Enabled(c, s, e)
    ensures var u := Next(c, s, e);
            && Sum(u.hosts, Holds()) == Sum(s.hosts, Holds()) + (if e.Acquire? then 1 else if e.Return? then -1 else 0)
            && Sum(u.hosts, Waits()) == Sum(s.hosts, Waits()) - (if e.Acquire? then 1 else 0)
  {
    var p := Next(c, s, e).hosts[e.h];
    SumSet(s.hosts, e.h, p, Holds());
    SumSet(s.hosts, e.h, p, Waits());
  }

  lemma AcquireKeepsCounted(c: Config, t: Timed, h: nat)
    requires Usable(c) && Counted(c, t) && Enabled(c, t.s, Acquire(h))
    ensures Counted(c, Step(c, t, Do(Acquire(h))))
  {
    StepKeepsInv(c, t.s, Acquire(h));
    HostCounts(c, t.s, Acquire(h));
    AcquireCounted(t.log, h, t.now);
    FewerReturned(t, Step(c, t, Do(Acquire(h))), h);
  }

  lemma ReturnKeepsCounted(c: Config, t: Timed, h: nat)
    requires Usable(c) && Counted(c, t) && Enabled(c, t.s, Return(h))
    ensures Counted(c, Step(c, t, Do(Return(h))))
  {
    StepKeepsInv(c, t.s, Return(h));
    HostCounts(c, t.s, Return(h));
    ReturnCounted(c, t, h);
  }

  lemma OtherKeepsCounted(c: Config, t: Timed, e: Event)
    requires Usable(c) && Counted(c, t) && Enabled(c, t.s, e) && !e.Acquire? && !e.Return?
    ensures Counted(c, Step(c, t, Do(e)))
  {
    StepKeepsInv(c, t.s, e);
    HostCounts(c, t.s, e);
    FewerReturned(t, Step(c, t, Do(e)), e.h);
  }

  lemma FewerReturned(t: Timed, u: Timed, h: nat)
    requires h < |t.s.hosts| && |u.s.hosts| == |t.s.hosts| && u.s.hosts == t.s.hosts[h := u.s.hosts[h]]
    requires !u.s.hosts[h].Returned? && t.log <= u.log && u.now == t.now
    requires SomeReturned(t.s) ==> exists k :: 0 <= k < |t.log| && t.log[k].end == Some(t.now)
    ensures SomeReturned(u.s) ==> exists k :: 0 <= k < |u.log| && u.log[k].end == Some(u.now)
  {
    if SomeReturned(u.s) {
      var g :| 0 <= g < |u.s.hosts| && u.s.hosts[g].Returned?;
      assert t.s.hosts[g].Returned?;
      var k :| 0 <= k < |t.log| && t.log[k].end == Some(t.now);
      assert u.log[k] == t.log[k];
    }
  }

  lemma KeepsCounted(c: Config, t: Timed, e: Event)
    requires Usable(c) && Counted(c, t) && Enabled(c, t.s, e)
    ensures Counted(c, Step(c, t, Do(e)))
  {
    match e
    case Acquire(h) => AcquireKeepsCounted(c, t, h);
    case Return(h) => ReturnKeepsCounted(c, t, h);
    case _ => OtherKeepsCounted(c, t, e);
  }

  lemma AcquireCounted(log: seq<Pull>, h: nat, now: real)
    ensures var p := Pull(h, now, None);
            && Sum(log + [p], Open()) == Sum(log, Open()) + 1
            && forall g: nat :: Sum(log + [p], OpenOf(g)) == Sum(log, OpenOf(g)) + if g == h then 1 else 0
  {
    var p := Pull(h, now, None);
    SumAppend(log, p, Open());
    forall g: nat ensures Sum(log + [p], OpenOf(g)) == Sum(log, OpenOf(g)) + if g == h then 1 else 0 {
      SumAppend(log, p, OpenOf(g));
    }
  }

  lemma ReturnCounted(c: Config, t: Timed, h: nat)
    requires Usable(c) && Counted(c, t) && Enabled(c, t.s, Return(h))
    ensures var log := Closed(t.log, h, t.now);
            && Sum(log, Open()) + 1 == Sum(t.log, Open())
            && (forall g: nat :: Sum(log, OpenOf(g)) == if g == h then 0 else Sum(t.log, OpenOf(g)))
            && exists k :: 0 <= k < |log| && log[k].end == Some(t.now)
  {
    var log := Closed(t.log, h, t.now);
    assert Sum(t.log, OpenOf(h)) == Holds()(t.s.hosts[h]);
    forall g: nat ensures Sum(log, OpenOf(g)) == if g == h then 0 else Sum(t.log, OpenOf(g)) {
      ClosedCounts(t.log, h, t.now, g);
    }
    ClosedCounts(t.log, h, t.now, h);
    var k := SumFind(t.log, OpenOf(h));
    assert log[k] == Closing(t.log[k], h, t.now);
  }

  lemma {:induction false} AllOpenFly(log: seq<Pull>, now: real, x: real)
    requires now <= x
    requires forall k :: 0 <= k < |log| ==> log[k].start <= now && (log[k].end.Some? ==> log[k].end.value <= now)
    ensures Sum(log, Flying(x)) == Sum(log, Open())
  {
    if log != [] {
      AllOpenFly(log[1..], now, x);
    }
  }

  lemma WaitKeepsFull(c: Config, t: Timed, until: real)
    requires Usable(c) && Kept(c, t) && CanPass(c, t, until)
    ensures Full(c, t.(now := until))
  {
    if SomeWaiting(t.s) {
      forall x | 0.0 <= x < until ensures Sum(t.log, Flying(x)) == Limit(c) {
        if t.now <= x {
          assert forall k :: 0 <= k < |t.log| ==> InTime(c, t.log[k], t.now);
          AllOpenFly(t.log, t.now, x);
        }
      }
    }
  }

  lemma AcquireKeepsFull(c: Config, t: Timed, h: nat)
    requires Usable(c) && Kept(c, t) && Enabled(c, t.s, Acquire(h))
    ensures Full(c, Step(c, t, Do(Acquire(h))))
  {
    var u, p := Step(c, t, Do(Acquire(h))), Pull(h, t.now, None);
    assert SomeWaiting(t.s);
    forall until | until <= t.now && FullUntil(c, t.log, until) ensures FullUntil(c, u.log, until) {
      forall x | 0.0 <= x < until ensures Sum(u.log, Flying(x)) == Limit(c) {
        SumAppend(t.log, p, Flying(x));
      }
    }
    forall k | 0 <= k < |u.log| ensures FullUntil(c, u.log, u.log[k].start) {
      if k < |t.log| {
        assert InTime(c, t.log[k], t.now) && FullUntil(c, t.log, t.log[k].start);
      }
    }
  }

  lemma ReturnKeepsFull(c: Config, t: Timed, h: nat)
    requires Usable(c) && Kept(c, t) && Enabled(c, t.s, Return(h))
    ensures Full(c, Step(c, t, Do(Return(h))))
  {
    var u := Step(c, t, Do(Return(h)));
    forall until | until <= t.now && FullUntil(c, t.log, until) ensures FullUntil(c, u.log, until) {
      forall x | 0.0 <= x < until ensures Sum(u.log, Flying(x)) == Limit(c) {
        ClosedFlying(t.log, h, t.now, x);
      }
    }
    FewerWait(t.s, u.s, h);
    forall k | 0 <= k < |u.log| ensures FullUntil(c, u.log, u.log[k].start) {
      assert InTime(c, t.log[k], t.now) && FullUntil(c, t.log, t.log[k].start);
    }
  }

  lemma FewerWait(s: State, u: State, h: nat)
    requires h < |s.hosts| && |u.hosts| == |s.hosts| && !u.hosts[h].Waiting? && u.hosts == s.hosts[h := u.hosts[h]]
    ensures SomeWaiting(u) ==> SomeWaiting(s)
  {
    if SomeWaiting(u) {
      var g :| 0 <= g < |u.hosts| && u.hosts[g].Waiting?;
      assert s.hosts[g].Waiting?;
    }
  }

  lemma StepKeeps(c: Config, t: Timed, k: Tick)
    requires Usable(c) && Kept(c, t) && Possible(c, t, k)
    ensures Kept(c, Step(c, t, k))
  {
    KeepsOrdered(c, t, k);
    match k
    case Wait(until) => WaitKeepsFull(c, t, until);
    case Do(e) =>
      KeepsCounted(c, t, e);
      match e
      case Acquire(h) => AcquireKeepsFull(c, t, h);
      case Return(h) => ReturnKeepsFull(c, t, h);
      case _ => FewerWait(t.s, Next(c, t.s, e), e.h);
  }

  lemma {:induction false} RunKeeps(c: Config, t: Timed, ks: seq<Tick>)
    requires Usable(c) && Kept(c, t) && TimedRun(c, t, ks)
    ensures Kept(c, Later(c, t, ks))
    decreases |ks|
  {
    if ks != [] {
      StepKeeps(c, t, ks[0]);
      RunKeeps(c, Step(c, t, ks[0]), ks[1..]);
    }
  }

  lemma {:induction false} AllWait(n: nat)
    ensures Sum(seq(n, _ => Waiting), Waits()) == n
  {
    if n > 0 {
      AllWait(n - 1);
      assert seq(n, _ => Waiting)[1..] == seq(n - 1, _ => Waiting);
    }
  }

  lemma BeginKept(c: Config)
    requires Usable(c)
    ensures Kept(c, Begin(c))
  {
    Reached(c, []);
    NoneYet(c.hosts, Holds());
    AllWait(c.hosts);
  }

  // ---------------------------------------------------------------- when pulls start

  lemma {:induction false} NoneCount(log: seq<Pull>, f: Pull -> nat)
    requires forall k :: 0 <= k < |log| ==> f(log[k]) == 0
    ensures Sum(log, f) == 0
  {
    if log != [] {
      NoneCount(log[1..], f);
    }
  }

  lemma {:induction false} CountWithin(log: seq<Pull>, x: real, lo: nat, hi: nat)
    requires lo <= hi <= |log|
    requires forall k :: 0 <= k < |log| && !(lo <= k < hi) ==> Flying(x)(log[k]) == 0
    ensures Sum(log, Flying(x)) <= hi - lo
    decreases hi - lo
  {
    if lo == hi {
      NoneCount(log, Flying(x));
    } else {
      assert log == log[..lo] + ([log[lo]] + log[lo + 1..]);
      var rest := log[..lo] + log[lo + 1..];
      SumRemove(log, lo, Flying(x));
      forall k | 0 <= k < |rest| && !(lo <= k < hi - 1) ensures Flying(x)(rest[k]) == 0 {
        assert rest[k] == log[if k < lo then k else k + 1];
      }
      CountWithin(rest, x, lo, hi - 1);
    }
  }

  /** The time `at` separates the first k pulls from the others, and until then all tokens were in use. */
  ghost predicate Cut(c: Config, t: Timed, k: nat, at: real)
    requires Usable(c)
  {
    && k <= |t.log| && 0.0 <= at <= t.now && FullUntil(c, t.log, at)
    && (forall j :: 0 <= j < |t.log| ==> if j < k then t.log[j].start <= at else at <= t.log[j].start)
  }

  /** Before a cut there is no wait, or the host n places earlier started at most one timeout before. */
  lemma StartsSoon(c: Config, t: Timed, k: nat, at: real)
    requires Usable(c) && Ordered(c, t) && Cut(c, t, k, at)
    ensures k < Limit(c) ==> at == 0.0
    ensures k >= Limit(c) ==> at <= t.log[k - Limit(c)].start + c.timeout as real
  {
    var n := Limit(c);
    if k < n {
      if at > 0.0 {
        CountWithin(t.log, 0.0, 0, k);
      }
    } else {
      var x := t.log[k - n].start + c.timeout as real;
      if x < at {
        forall j | 0 <= j < |t.log| && !(k - n + 1 <= j < k) ensures Flying(x)(t.log[j]) == 0 {
          assert InTime(c, t.log[j], t.now);
        }
        assert InTime(c, t.log[k - n], t.now);
        CountWithin(t.log, x, k - n + 1, k);
      }
    }
  }

  /** A cut after k pulls comes at most k / n timeouts after the beginning. */
  lemma {:induction false} StartBound(c: Config, t: Timed, k: nat, at: real)
    requires Usable(c) && Ordered(c, t) && Full(c, t) && Cut(c, t, k, at)
    ensures at * Limit(c) as real <= k as real * c.timeout as real
    decreases k
  {
    var n := Limit(c);
    StartsSoon(c, t, k, at);
    if k < n {
      AtZero(at, n as real, k as real, c.timeout as real);
    } else {
      var j := k - n;
      StartCut(c, t, j);
      StartBound(c, t, j, t.log[j].start);
      Widen(at, t.log[j].start, c.timeout as real, n as real, j as real, k as real);
    }
  }

  lemma AtZero(a: real, m: real, q: real, t: real)
    requires a == 0.0 && q >= 0.0 && t >= 0.0
    ensures a * m <= q * t
  {
  }

  lemma StartCut(c: Config, t: Timed, j: nat)
    requires Usable(c) && Ordered(c, t) && Full(c, t) && j < |t.log|
    ensures Cut(c, t, j, t.log[j].start)
  {
    assert InTime(c, t.log[j], t.now);
  }

  lemma Widen(a: real, b: real, t: real, m: real, q: real, k: real)
    requires a <= b + t && b * m <= q * t && m >= 0.0 && k == q + m
    ensures a * m <= k * t
  {
    Scale(a, b + t, m);
    assert (b + t) * m == b * m + t * m;
    assert (q + m) * t == q * t + m * t;
  }

  lemma Scale(x: real, y: real, m: real)
    requires x <= y && m >= 0.0
    ensures x * m <= y * m
  {
  }

  lemma CutInTime(c: Config, t: Timed, k: nat, at: real)
    requires Usable(c) && Kept(c, t) && Cut(c, t, k, at)
    ensures at < c.interval as real
  {
    StartBound(c, t, k, at);
    LimitFits(c);
    Fits(at, k, c.hosts, c.timeout, Limit(c), c.interval);
  }

  lemma Fits(at: real, k: nat, hosts: nat, timeout: nat, n: nat, interval: nat)
    requires k <= hosts && hosts * timeout < n * interval
    requires at * n as real <= k as real * timeout as real
    ensures at < interval as real
  {
    Product(k, hosts, timeout);
    var i, m := interval as real, n as real;
    assert k as real * timeout as real == (k * timeout) as real;
    assert i * m == (n * interval) as real;
    assert at * m < i * m;
    if at >= i {
      Scale(i, at, m);
    }
  }

  lemma Product(k: nat, hosts: nat, timeout: nat)
    requires k <= hosts
    ensures k * timeout <= hosts * timeout
  {
  }

  lemma HeldIsOpen(c: Config, t: Timed, h: nat) returns (k: nat)
    requires Usable(c) && Counted(c, t) && h < |t.s.hosts| && (t.s.hosts[h].Pulling? || t.s.hosts[h].Answered?)
    ensures k < |t.log| && t.log[k].end.None?
  {
    assert Sum(t.log, OpenOf(h)) == Holds()(t.s.hosts[h]);
    k := SumFind(t.log, OpenOf(h));
  }

  /**
    In every timed run each pull starts within one interval, no host waits any longer than that, and the
    round is over before interval + timeout.
   */
  lemma RoundOnTime(c: Config, ks: seq<Tick>)
    requires Usable(c) && TimedRun(c, Begin(c), ks)
    ensures var t := Later(c, Begin(c), ks);
            && (forall k :: 0 <= k < |t.log| ==> t.log[k].start < c.interval as real)
            && (SomeWaiting(t.s) ==> t.now < c.interval as real)
            && (!RoundOver(t.s) ==> t.now < c.interval as real + c.timeout as real)
  {
    var t := Later(c, Begin(c), ks);
    BeginKept(c);
    RunKeeps(c, Begin(c), ks);
    forall k | 0 <= k < |t.log| ensures t.log[k].start < c.interval as real {
      StartCut(c, t, k);
      CutInTime(c, t, k, t.log[k].start);
    }
    if SomeWaiting(t.s) {
      assert forall j :: 0 <= j < |t.log| ==> InTime(c, t.log[j], t.now);
      CutInTime(c, t, |t.log|, t.now);
    } else if !RoundOver(t.s) {
      var h :| 0 <= h < |t.s.hosts| && !t.s.hosts[h].Finished?;
      var k: nat;
      if t.s.hosts[h].Returned? {
        k :| k < |t.log| && t.log[k].end == Some(t.now);
      } else {
        k := HeldIsOpen(c, t, h);
      }
      assert InTime(c, t.log[k], t.now);
    }
  }

  /** The untimed part of a timed run is a run, so all that holds of runs holds of timed ones; here, that nothing is stuck. */
  lemma TimedGoesOn(c: Config, ks: seq<Tick>) returns (e: Event)
    requires Usable(c) && TimedRun(c, Begin(c), ks) && !RoundOver(Later(c, Begin(c), ks).s)
    ensures Possible(c, Later(c, Begin(c), ks), Do(e))
  {
    BeginKept(c);
    RunKeeps(c, Begin(c), ks);
    e := GoesOn(c, Later(c, Begin(c), ks).s);
  }
}
