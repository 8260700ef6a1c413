/** One round of the health puller: one goroutine per host, a rate limiter and a buffered response channel. */
module PullRound {
  import opened Sums

  /** A round over `hosts` hosts; times are in seconds. */
  datatype Config = Config(hosts: nat, timeout: nat, interval: nat)

  /** The interval divides; with 0 the source panics. */
  predicate Usable(c: Config) { c.interval > 0 }

  /** The size of the rate limiter. */
  function Limit(c: Config): nat
    requires Usable(c)
  {
    (c.hosts * c.timeout) / c.interval + 1
  }

  /** Deferred calls run in the order: return the token, then mark the goroutine done. */
  datatype Phase = Waiting | Pulling | Answered | Returned | Finished

  datatype State = State(free: nat, hosts: seq<Phase>, responses: seq<nat>)

  datatype Event = Acquire(h: nat) | Respond(h: nat) | Return(h: nat) | Finish(h: nat)

  function Init(c: Config): State
    requires Usable(c)
  {
    State(Limit(c), seq(c.hosts, _ => Waiting), [])
  }

  predicate Enabled(c: Config, s: State, e: Event)
    requires Usable(c)
  {
    && e.h < |s.hosts|
    && match e
       case Acquire(h) => s.hosts[h].Waiting? && s.free > 0
       case Respond(h) => s.hosts[h].Pulling? && |s.responses| < c.hosts
       case Return(h) => s.hosts[h].Answered? && s.free < Limit(c)
       case Finish(h) => s.hosts[h].Returned?
  }

  function Next(c: Config, s: State, e: Event): State
    requires Usable(c) && Enabled(c, s, e)
  {
    match e
    case Acquire(h) => s.(free := s.free - 1, hosts := s.hosts[h := Pulling])
    case Respond(h) => s.(responses := s.responses + [h], hosts := s.hosts[h := Answered])
    case Return(h) => s.(free := s.free + 1, hosts := s.hosts[h := Returned])
    case Finish(h) => s.(hosts := s.hosts[h := Finished])
  }

  predicate Run(c: Config, s: State, es: seq<Event>)
    requires Usable(c)
    decreases |es|
  {
    es == [] || (Enabled(c, s, es[0]) && Run(c, Next(c, s, es[0]), es[1..]))
  }

  function After(c: Config, s: State, es: seq<Event>): State
    requires Usable(c) && Run(c, s, es)
    decreases |es|
  {
    if es == [] then s else After(c, Next(c, s, es[0]), es[1..])
  }

  /** The wait group is released. */
  ghost predicate RoundOver(s: State) {
    forall h :: 0 <= h < |s.hosts| ==> s.hosts[h].Finished?
  }

  function Holds(): Phase -> nat { (p: Phase) => if p.Pulling? || p.Answered? then 1 else 0 }

  function HasAnswered(p: Phase): bool { p.Answered? || p.Returned? || p.Finished? }

  function Answers(): Phase -> nat { (p: Phase) => if HasAnswered(p) then 1 else 0 }

  ghost predicate Inv(c: Config, s: State)
    requires Usable(c)
  {
    && |s.hosts| == c.hosts
    && s.free + Sum(s.hosts, Holds()) == Limit(c)
    && |s.responses| == Sum(s.hosts, Answers())
  }

  lemma {:induction false} NoneYet(n: nat, f: Phase -> nat)
    requires f(Waiting) == 0
    ensures Sum(seq(n, _ => Waiting), f) == 0
  {
    if n > 0 {
      NoneYet(n - 1, f);
      assert seq(n, _ => Waiting)[1..] == seq(n - 1, _ => Waiting);
    }
  }

  lemma StepKeepsInv(c: Config, s: State, e: Event)
    requires Usable(c) && Inv(c, s) && Enabled(c, s, e)
    ensures Inv(c, Next(c, s, e))
  {
    var p := Next(c, s, e).hosts[e.h];
    SumSet(s.hosts, e.h, p, Holds());
    SumSet(s.hosts, e.h, p, Answers());
  }

  lemma {:induction false} RunKeepsInv(c: Config, s: State, es: seq<Event>)
    requires Usable(c) && Inv(c, s) && Run(c, s, es)
    ensures Inv(c, After(c, s, es))
    decreases |es|
  {
    if es != [] {
      StepKeepsInv(c, s, es[0]);
      RunKeepsInv(c, Next(c, s, es[0]), es[1..]);
    }
  }

  lemma Reached(c: Config, es: seq<Event>)
    requires Usable(c) && Run(c, Init(c), es)
    ensures Inv(c, After(c, Init(c), es))
  {
    NoneYet(c.hosts, Holds());
    NoneYet(c.hosts, Answers());
    RunKeepsInv(c, Init(c), es);
  }

  lemma {:induction false} AtMostAll(s: seq<Phase>, f: Phase -> nat)
    requires forall p :: f(p) <= 1
    ensures Sum(s, f) <= |s|
  {
    if s != [] {
      AtMostAll(s[1..], f);
    }
  }

  lemma Unblocked(c: Config, s: State, h: nat)
    requires Usable(c) && Inv(c, s) && h < c.hosts
    ensures s.hosts[h].Pulling? ==> Enabled(c, s, Respond(h))
    ensures s.hosts[h].Answered? ==> Enabled(c, s, Return(h))
  {
    SumRemove(s.hosts, h, Holds());
    SumRemove(s.hosts, h, Answers());
    AtMostAll(s.hosts[..h] + s.hosts[h + 1..], Answers());
  }

  /** At most n pulls are in flight, and neither a response nor a token return ever blocks. */
  lemma NothingBlocks(c: Config, es: seq<Event>, h: nat)
    requires Usable(c) && Run(c, Init(c), es) && h < c.hosts
    ensures var s := After(c, Init(c), es);
            && s.free + Sum(s.hosts, Holds()) == Limit(c)
            && h < |s.hosts|
            && (s.hosts[h].Pulling? ==> Enabled(c, s, Respond(h)))
            && (s.hosts[h].Answered? ==> Enabled(c, s, Return(h)))
  {
    Reached(c, es);
    Unblocked(c, After(c, Init(c), es), h);
  }

  lemma GoesOn(c: Config, s: State) returns (e: Event)
    requires Usable(c) && Inv(c, s) && !RoundOver(s)
    ensures Enabled(c, s, e)
  {
    var h :| 0 <= h < |s.hosts| && !s.hosts[h].Finished?;
    if s.hosts[h].Waiting? && s.free == 0 {
      var k := SumFind(s.hosts, Holds());
      Unblocked(c, s, k);
      e := if s.hosts[k].Pulling? then Respond(k) else Return(k);
    } else {
      Unblocked(c, s, h);
      var p := s.hosts[h];
      e := if p.Waiting? then Acquire(h) else if p.Pulling? then Respond(h)
           else if p.Answered? then Return(h) else Finish(h);
    }
  }

  /** Until the round is over some goroutine can go on. */
  lemma NoDeadlock(c: Config, es: seq<Event>) returns (e: Event)
    requires Usable(c) && Run(c, Init(c), es) && !RoundOver(After(c, Init(c), es))
    ensures Enabled(c, After(c, Init(c), es), e)
  {
    Reached(c, es);
    e := GoesOn(c, After(c, Init(c), es));
  }

  function Steps(): Phase -> nat {
    (p: Phase) =>
      match p
      case Waiting => 4
      case Pulling => 3
      case Answered => 2
      case Returned => 1
      case Finished => 0
  }

  lemma {:induction false} RunSteps(c: Config, s: State, es: seq<Event>)
    requires Usable(c) && Run(c, s, es)
    ensures |es| + Sum(After(c, s, es).hosts, Steps()) == Sum(s.hosts, Steps())
    decreases |es|
  {
    if es != [] {
      SumSet(s.hosts, es[0].h, Next(c, s, es[0]).hosts[es[0].h], Steps());
      RunSteps(c, Next(c, s, es[0]), es[1..]);
    }
  }

  lemma {:induction false} AllSteps(n: nat)
    ensures Sum(seq(n, _ => Waiting), Steps()) == 4 * n
  {
    if n > 0 {
      AllSteps(n - 1);
      assert seq(n, _ => Waiting)[1..] == seq(n - 1, _ => Waiting);
    }
  }

  // ---------------------------------------------------------------- exactly one response per host

  lemma StepAnswers(c: Config, s: State, e: Event, h: nat)
    requires Usable(c) && Enabled(c, s, e) && h < |s.hosts|
    requires Sum(s.responses, Is(h)) == if HasAnswered(s.hosts[h]) then 1 else 0
    ensures var t := Next(c, s, e);
            h < |t.hosts| && Sum(t.responses, Is(h)) == if HasAnswered(t.hosts[h]) then 1 else 0
  {
    if e.Respond? {
      SumAppend(s.responses, e.h, Is(h));
    }
  }

  lemma {:induction false} RunAnswers(c: Config, s: State, es: seq<Event>, h: nat)
    requires Usable(c) && Run(c, s, es) && h < |s.hosts|
    requires Sum(s.responses, Is(h)) == if HasAnswered(s.hosts[h]) then 1 else 0
    ensures var t := After(c, s, es);
            h < |t.hosts| && Sum(t.responses, Is(h)) == if HasAnswered(t.hosts[h]) then 1 else 0
    decreases |es|
  {
    if es != [] {
      StepAnswers(c, s, es[0], h);
      RunAnswers(c, Next(c, s, es[0]), es[1..], h);
    }
  }

  lemma {:induction false} AllAnswered(hosts: seq<Phase>)
    requires forall h :: 0 <= h < |hosts| ==> hosts[h].Finished?
    ensures Sum(hosts, Answers()) == |hosts| && Sum(hosts, Steps()) == 0
  {
    if hosts != [] {
      AllAnswered(hosts[1..]);
    }
  }

  /** A round is over after exactly four events per host, with exactly one buffered response from each host. */
  lemma RoundResult(c: Config, es: seq<Event>, h: nat)
    requires Usable(c) && Run(c, Init(c), es)
    ensures |es| <= 4 * c.hosts
    ensures RoundOver(After(c, Init(c), es)) ==>
              var s := After(c, Init(c), es);
              && |es| == 4 * c.hosts && |s.responses| == c.hosts && s.free == Limit(c)
              && (h < c.hosts ==> multiset(s.responses)[h] == 1)
  {
    var s := After(c, Init(c), es);
    Reached(c, es);
    RunSteps(c, Init(c), es);
    AllSteps(c.hosts);
    if RoundOver(s) {
      AllAnswered(s.hosts);
      if h < c.hosts {
        RunAnswers(c, Init(c), es, h);
        SumIs(s.responses, h);
      }
      NoneHeld(s.hosts);
    }
  }

  lemma {:induction false} NoneHeld(hosts: seq<Phase>)
    requires forall h :: 0 <= h < |hosts| ==> hosts[h].Finished?
    ensures Sum(hosts, Holds()) == 0
  {
    if hosts != [] {
      NoneHeld(hosts[1..]);
    }
  }

  /** The limiter is just large enough: the total pull time fits in n intervals, and not in fewer. */
  lemma LimitFits(c: Config)
    requires Usable(c)
    ensures c.hosts * c.timeout < Limit(c) * c.interval
    ensures (Limit(c) - 1) * c.interval <= c.hosts * c.timeout
  {
    var a, i := c.hosts * c.timeout, c.interval;
    assert a == (a / i) * i + a % i;
    assert (a / i + 1) * i == (a / i) * i + i;
  }
}
