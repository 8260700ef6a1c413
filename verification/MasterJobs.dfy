/** The deprecated job on several masters: a start is refused when any other master runs a job or cannot be asked. */
module MasterJobs {
  import opened Common

  /** The answer of another master to the status request. */
  datatype Answer = NoAnswer | Says(running: bool)

  /** What a master sees when it starts a job: the listed masters, its own address if it could be detected, the answers. */
  datatype View = View(listed: Option<seq<string>>, localIP: Option<string>, ask: string -> Answer)

  predicate IsLocal(v: View, ip: string) { v.localIP == Some(ip) }

  /** Every listed master other than the local one answers. */
  ghost predicate AllAnswer(v: View, ms: seq<string>, n: nat)
    requires n <= |ms|
  {
    forall k :: 0 <= k < n && !IsLocal(v, ms[k]) ==> v.ask(ms[k]).Says?
  }

  class DiagnosticsJob {
    var running: bool
    var jobs: nat                  // jobs started so far

    constructor ()
      ensures !running && jobs == 0
    {
      running, jobs := false, 0;
    }

    /** Statuses by address; None when some master could not be asked. */
    method GetStatusAll(v: View) returns (r: Option<map<string, bool>>)
      ensures r.Some? <==> v.listed.Some? && v.listed.value != [] && AllAnswer(v, v.listed.value, |v.listed.value|)
      ensures r.Some? ==>
                && (forall ip :: ip in r.value ==>
                      if IsLocal(v, ip) then r.value[ip] == running
                      else ip in v.listed.value && v.ask(ip) == Says(r.value[ip]))
                && (forall k :: 0 <= k < |v.listed.value| ==> v.listed.value[k] in r.value)
                && (v.localIP.Some? ==> v.localIP.value in r.value)
    {
      if v.listed.None? || v.listed.value == [] {
        return None;
      }
      var masters := v.listed.value;
      var statuses: map<string, bool> := map[];
      var errs := 0;
      if v.localIP.Some? {
        statuses := statuses[v.localIP.value := running];
      }
      for k := 0 to |masters|
        invariant errs == 0 <==> AllAnswer(v, masters, k)
        invariant forall ip :: ip in statuses ==>
                    if IsLocal(v, ip) then statuses[ip] == running
                    else ip in masters && v.ask(ip) == Says(statuses[ip])
        invariant errs == 0 ==> forall i :: 0 <= i < k ==> masters[i] in statuses
        invariant v.localIP.Some? ==> v.localIP.value in statuses
        invariant errs >= 0
      {
        var ip := masters[k];
        if IsLocal(v, ip) {
          continue;
        }
        if v.ask(ip).NoAnswer? {
          errs := errs + 1;
          continue;
        }
        statuses := statuses[ip := v.ask(ip).running];
      }
      assert errs == 0 ==> masters[0] in statuses;
      if statuses == map[] || errs != 0 {
        return None;
      }
      return Some(statuses);
    }

    /** run: whether a job was started. `ready` covers the steps between the check and the start that can fail. */
    method RunJob(isMaster: bool, v: View, ready: bool) returns (started: bool)
      modifies this
      ensures started <==> isMaster && ready && Allowed(old(running), v)
      ensures started ==> v.listed.Some? && v.listed.value != [] && !old(running)
      ensures running == (old(running) || started)
      ensures jobs == old(jobs) + if started then 1 else 0
    {
      if !isMaster {
        return false;
      }
      if running {
        return false;
      }
      var all := GetStatusAll(v);
      if all.None? {
        return false;
      }
      if ip :| ip in all.value && all.value[ip] {
        return false;
      }
      Decided(running, v, all.value);
      if !ready {
        return false;
      }
      running := true;
      jobs := jobs + 1;
      return true;
    }

    method Stop()
      modifies this
      ensures !running && jobs == old(jobs)
    {
      running := false;
    }
  }

  /** The decision of isRunning and run: nobody is known to run, and everybody could be asked. */
  ghost predicate Allowed(running: bool, v: View) {
    && !running
    && v.listed.Some? && v.listed.value != []
    && (forall k :: 0 <= k < |v.listed.value| && !IsLocal(v, v.listed.value[k]) ==> v.ask(v.listed.value[k]) == Says(false))
  }

  lemma Decided(running: bool, v: View, all: map<string, bool>)
    requires !running && v.listed.Some? && v.listed.value != [] && AllAnswer(v, v.listed.value, |v.listed.value|)
    requires forall ip :: ip in all ==>
               if IsLocal(v, ip) then all[ip] == running else ip in v.listed.value && v.ask(ip) == Says(all[ip])
    requires forall k :: 0 <= k < |v.listed.value| ==> v.listed.value[k] in all
    requires forall ip :: ip in all ==> !all[ip]
    ensures Allowed(running, v)
  {
  }

  /**
    What refuses a start: a job of the master's own, masters that cannot be listed, an empty list, or another
    listed master that does not answer or says that it runs a job; nothing else.
   */
  lemma Refused(running: bool, v: View)
    ensures !Allowed(running, v) <==>
              || running || v.listed == None || v.listed == Some([])
              || (exists k :: 0 <= k < |v.listed.value| && v.localIP != Some(v.listed.value[k]) &&
                              (v.ask(v.listed.value[k]) == NoAnswer || v.ask(v.listed.value[k]) == Says(true)))
  {
    if !Allowed(running, v) && !running && v.listed.Some? && v.listed.value != [] {
      var k :| 0 <= k < |v.listed.value| && !IsLocal(v, v.listed.value[k]) && v.ask(v.listed.value[k]) != Says(false);
      assert v.localIP != Some(v.listed.value[k]);
    }
  }

  // ---------------------------------------------------------------- the cluster

  /**
    A cluster: the masters whose flag says that a job is running, the requests that have passed their check
    but not yet started, by master, and the background jobs that are really at work, by master.
   */
  datatype Cluster = Cluster(running: set<string>, checked: multiset<string>, live: multiset<string>)

  /** What master m sees now when everybody is listed, `up` answer, and m knows its address or not. */
  ghost predicate Sees(masters: set<string>, s: Cluster, m: string, v: View) {
    && v.listed.Some?
    && (forall ip :: ip in masters ==> ip in v.listed.value)
    && (v.localIP == None || v.localIP == Some(m))
    && (forall ip :: ip in v.listed.value ==> v.ask(ip) == NoAnswer || v.ask(ip) == Says(ip in s.running))
  }

  /** A run request is a check, then a start or a failure of the steps in between. The end of any job clears the flag. */
  datatype Event = Check(m: string, v: View) | Start(m: string) | GiveUp(m: string) | Stop(m: string)

  ghost predicate Enabled(masters: set<string>, s: Cluster, e: Event) {
    match e
    case Check(m, v) => m in masters && Sees(masters, s, m, v) && Allowed(m in s.running, v)
    case Start(m) => m in s.checked
    case GiveUp(m) => m in s.checked
    case Stop(m) => m in s.live
  }

  ghost function Next(masters: set<string>, s: Cluster, e: Event): Cluster
    requires Enabled(masters, s, e)
  {
    match e
    case Check(m, _) => s.(checked := s.checked + multiset{m})
    case Start(m) => Cluster(s.running + {m}, s.checked - multiset{m}, s.live + multiset{m})
    case GiveUp(m) => s.(checked := s.checked - multiset{m})
    case Stop(m) => s.(running := s.running - {m}, live := s.live - multiset{m})
  }

  ghost predicate Run(masters: set<string>, s: Cluster, es: seq<Event>)
    decreases |es|
  {
    es == [] || (Enabled(masters, s, es[0]) && Run(masters, Next(masters, s, es[0]), es[1..]))
  }

  ghost function After(masters: set<string>, s: Cluster, es: seq<Event>): Cluster
    requires Run(masters, s, es)
    decreases |es|
  {
    if es == [] then s else After(masters, Next(masters, s, es[0]), es[1..])
  }

  /** No request checks while another is between its check and its start. */
  ghost predicate OneAtATime(masters: set<string>, s: Cluster, es: seq<Event>)
    requires Run(masters, s, es)
    decreases |es|
  {
    es == [] || ((es[0].Check? ==> s.checked == multiset{}) && OneAtATime(masters, Next(masters, s, es[0]), es[1..]))
  }

  /** A passed check means that no master was running at all. */
  lemma CheckMeansNone(masters: set<string>, s: Cluster, m: string, v: View)
    requires s.running <= masters && m in masters && Sees(masters, s, m, v) && Allowed(m in s.running, v)
    ensures s.running == {}
  {
    assert forall ip :: ip !in s.running;
  }

  /** The flags tell exactly where jobs are at work. */
  ghost predicate Truthful(s: Cluster) { forall m :: m in s.running <==> m in s.live }

  /** At most one job is at work or about to start, and the flags are truthful. */
  ghost predicate Single(masters: set<string>, s: Cluster) {
    && s.running <= masters && (forall m :: m in s.checked ==> m in masters)
    && |s.live| + |s.checked| <= 1 && Truthful(s)
  }

  lemma OneOnly(x: multiset<string>, m: string)
    requires |x| <= 1 && m in x
    ensures x == multiset{m}
  {
    assert |x - multiset{m}| == |x| - 1;
    assert x - multiset{m} == multiset{};
    assert x == (x - multiset{m}) + multiset{m};
  }

  lemma StepKeepsSingle(masters: set<string>, s: Cluster, e: Event)
    requires Single(masters, s) && Enabled(masters, s, e) && (e.Check? ==> s.checked == multiset{})
    ensures Single(masters, Next(masters, s, e))
  {
    match e
    case Check(m, v) =>
      CheckMeansNone(masters, s, m, v);
      assert forall x :: x !in s.live;
      assert s.live == multiset{} && s.checked + multiset{m} == multiset{m};
    case Start(m) =>
      OneOnly(s.checked, m);
      assert s.live == multiset{} && s.live + multiset{m} == multiset{m};
    case GiveUp(m) => OneOnly(s.checked, m);
    case Stop(m) => OneOnly(s.live, m);
  }

  /** A request that fails between its check and its start leaves nothing behind, so another can check at once. */
  lemma GiveUpFrees(masters: set<string>, s: Cluster, m: string)
    requires Single(masters, s) && Enabled(masters, s, GiveUp(m))
    ensures Next(masters, s, GiveUp(m)) == Cluster(s.running, multiset{}, s.live)
  {
    OneOnly(s.checked, m);
  }

  lemma {:induction false} RunKeepsSingle(masters: set<string>, s: Cluster, es: seq<Event>)
    requires Single(masters, s) && Run(masters, s, es) && OneAtATime(masters, s, es)
    ensures Single(masters, After(masters, s, es))
    decreases |es|
  {
    if es != [] {
      StepKeepsSingle(masters, s, es[0]);
      RunKeepsSingle(masters, Next(masters, s, es[0]), es[1..]);
    }
  }

  /** When checks and starts do not overlap, at most one job is at work in the cluster in every reachable state, where the flags say. */
  lemma AtMostOneRunning(masters: set<string>, es: seq<Event>)
    requires var s := Cluster({}, multiset{}, multiset{}); Run(masters, s, es) && OneAtATime(masters, s, es)
    ensures var t := After(masters, Cluster({}, multiset{}, multiset{}), es);
            && |t.live| + |t.checked| <= 1 && Truthful(t)
            && forall a, b :: a in t.running && b in t.running ==> a == b
  {
    RunKeepsSingle(masters, Cluster({}, multiset{}, multiset{}), es);
    var t := After(masters, Cluster({}, multiset{}, multiset{}), es);
    forall a, b | a in t.running && b in t.running ensures a == b {
      OneOnly(t.live, a);
    }
  }

  lemma Unroll(masters: set<string>, s: Cluster, es: seq<Event>)
    requires es != [] && Enabled(masters, s, es[0])
    ensures Run(masters, Next(masters, s, es[0]), es[1..]) ==>
              Run(masters, s, es) && After(masters, s, es) == After(masters, Next(masters, s, es[0]), es[1..])
  {
  }

  /** Two overlapping requests, in any state: both masters can end up running. */
  lemma OverlapBreaks(masters: set<string>, s: Cluster, a: string, b: string)
    requires a != b && a in s.checked && b in s.checked
    ensures Run(masters, s, [Start(a), Start(b)])
    ensures {a, b} <= After(masters, s, [Start(a), Start(b)]).running
  {
    var s1 := Next(masters, s, Start(a));
    Unroll(masters, s1, [Start(b)]);
    assert [Start(a), Start(b)][1..] == [Start(b)];
    Unroll(masters, s, [Start(a), Start(b)]);
  }

  /** Such a state is reachable: nothing in a check sees the check of another master. */
  lemma ChecksOverlap(a: string, b: string)
    requires a != b
    ensures var idle: string -> Answer := _ => Says(false);
            var es := [Check(a, View(Some([a, b]), Some(a), idle)), Check(b, View(Some([a, b]), Some(b), idle))];
            Run({a, b}, Cluster({}, multiset{}, multiset{}), es) && After({a, b}, Cluster({}, multiset{}, multiset{}), es).checked == multiset{a, b}
  {
    var idle: string -> Answer := _ => Says(false);
    var es := [Check(a, View(Some([a, b]), Some(a), idle)), Check(b, View(Some([a, b]), Some(b), idle))];
    var s1 := Next({a, b}, Cluster({}, multiset{}, multiset{}), es[0]);
    Unroll({a, b}, s1, es[1..]);
    Unroll({a, b}, Cluster({}, multiset{}, multiset{}), es);
  }

  /** The masters that run a job or have a request past its check. */
  ghost function Committed(s: Cluster): set<string> {
    s.running + set m | m in s.checked
  }

  ghost predicate NoChecks(es: seq<Event>) { forall k :: 0 <= k < |es| ==> !es[k].Check? }

  lemma {:induction false} OnlyCommittedRun(masters: set<string>, s: Cluster, es: seq<Event>)
    requires Run(masters, s, es) && NoChecks(es)
    ensures After(masters, s, es).running <= Committed(s)
    decreases |es|
  {
    if es != [] {
      OnlyCommittedRun(masters, Next(masters, s, es[0]), es[1..]);
    }
  }

  /** The starts, if any, after which a and b are both running. */
  lemma BringUp(masters: set<string>, s: Cluster, a: string, b: string) returns (es: seq<Event>)
    requires a != b && a in Committed(s) && b in Committed(s)
    ensures Run(masters, s, es) && NoChecks(es) && {a, b} <= After(masters, s, es).running
    decreases (if a in s.running then 0 else 1) + (if b in s.running then 0 else 1)
  {
    if a in s.running && b in s.running {
      es := [];
    } else {
      var m := if a in s.running then b else a;
      var rest := BringUp(masters, Next(masters, s, Start(m)), a, b);
      es := [Start(m)] + rest;
      Unroll(masters, s, es);
    }
  }

  /** From any state, two different masters can come to run without a further check exactly when two are committed. */
  lemma TwoRunWhen(masters: set<string>, s: Cluster)
    ensures (exists es, a, b :: Run(masters, s, es) && NoChecks(es) && a != b &&
                                {a, b} <= After(masters, s, es).running)
            <==> (exists a, b :: a != b && {a, b} <= Committed(s))
  {
    if es, a, b :| Run(masters, s, es) && NoChecks(es) && a != b && {a, b} <= After(masters, s, es).running {
      OnlyCommittedRun(masters, s, es);
      assert {a, b} <= Committed(s);
    }
    if a, b :| a != b && {a, b} <= Committed(s) {
      assert a in Committed(s) && b in Committed(s);
      var es := BringUp(masters, s, a, b);
    }
  }

  /** With all masters listed, a master can pass its check exactly when no master runs a job. */
  lemma CheckPossible(masters: set<string>, listed: seq<string>, s: Cluster, m: string)
    requires s.running <= masters && m in masters && forall ip :: ip in masters <==> ip in listed
    ensures (exists v :: Enabled(masters, s, Check(m, v))) <==> s.running == {}
  {
    if v :| Enabled(masters, s, Check(m, v)) {
      CheckMeansNone(masters, s, m, v);
    }
    if s.running == {} {
      var v := View(Some(listed), Some(m), _ => Says(false));
      assert m in listed;
      assert Enabled(masters, s, Check(m, v));
    }
  }

  /** A running job shuts out every master, and its end lets every master start again. */
  lemma StopFrees(masters: set<string>, listed: seq<string>, s: Cluster, m: string, n: string)
    requires Single(masters, s) && Enabled(masters, s, Stop(m)) && n in masters
    requires forall ip :: ip in masters <==> ip in listed
    ensures !exists v :: Enabled(masters, s, Check(n, v))
    ensures exists v :: Enabled(masters, Next(masters, s, Stop(m)), Check(n, v))
  {
    CheckPossible(masters, listed, s, n);
    StepKeepsSingle(masters, s, Stop(m));
    OneOnly(s.live, m);
    CheckPossible(masters, listed, Next(masters, s, Stop(m)), n);
  }

  // ---------------------------------------------------------------- two jobs on one master

  /** Some job is at work on a master whose flag is cleared. */
  ghost predicate Hidden(s: Cluster) { exists m :: m in s.live && m !in s.running }

  /** How many jobs of m are at work or past their check. */
  function Jobs(s: Cluster, m: string): nat { s.live[m] + s.checked[m] }

  lemma {:induction false} TruthfulStays(masters: set<string>, s: Cluster, es: seq<Event>)
    requires Run(masters, s, es) && NoChecks(es)
    requires Truthful(s) && forall m :: Jobs(s, m) <= 1
    ensures Truthful(After(masters, s, es))
    decreases |es|
  {
    if es != [] {
      var t := Next(masters, s, es[0]);
      forall m ensures (m in t.running <==> m in t.live) && Jobs(t, m) <= 1 {
        assert (m in s.running <==> m in s.live) && Jobs(s, m) <= 1;
      }
      TruthfulStays(masters, t, es[1..]);
    }
  }

  /** Starts until two jobs of m are at work, and then the end of one of them. */
  lemma Hide(masters: set<string>, s: Cluster, m: string) returns (es: seq<Event>)
    requires Jobs(s, m) >= 2
    ensures Run(masters, s, es) && NoChecks(es) && Hidden(After(masters, s, es))
    decreases s.checked[m]
  {
    if s.live[m] >= 2 {
      es := [Stop(m)];
      Unroll(masters, s, es);
      var t := Next(masters, s, Stop(m));
      assert m in t.live && m !in t.running;
    } else {
      var rest := Hide(masters, Next(masters, s, Start(m)), m);
      es := [Start(m)] + rest;
      Unroll(masters, s, es);
    }
  }

  /** From truthful flags a job can come to be hidden without a further check exactly when some master has two. */
  lemma HiddenWhen(masters: set<string>, s: Cluster)
    requires Truthful(s)
    ensures (exists es :: Run(masters, s, es) && NoChecks(es) && Hidden(After(masters, s, es)))
            <==> (exists m :: Jobs(s, m) >= 2)
  {
    if m :| Jobs(s, m) >= 2 {
      var es := Hide(masters, s, m);
    } else {
      forall es | Run(masters, s, es) && NoChecks(es) ensures !Hidden(After(masters, s, es)) {
        TruthfulStays(masters, s, es);
      }
    }
  }

  /** Two overlapping requests on one master: the first job to end clears the flag, and another master can pass its check. */
  lemma SameMasterOverlap(a: string, b: string)
    requires a != b
    ensures var idle: string -> Answer := _ => Says(false);
            var v, w := View(Some([a, b]), Some(a), idle), View(Some([a, b]), Some(b), idle);
            var s, es := Cluster({}, multiset{}, multiset{}), [Check(a, v), Check(a, v), Start(a), Start(a), Stop(a)];
            && Run({a, b}, s, es) && a in After({a, b}, s, es).live
            && Enabled({a, b}, After({a, b}, s, es), Check(b, w))
  {
    var idle: string -> Answer := _ => Says(false);
    var v := View(Some([a, b]), Some(a), idle);
    var s := Cluster({}, multiset{}, multiset{});
    var es := [Check(a, v), Check(a, v), Start(a), Start(a), Stop(a)];
    var s1 := Next({a, b}, s, es[0]);
    var s2 := Next({a, b}, s1, es[1]);
    var s3 := Next({a, b}, s2, es[2]);
    var s4 := Next({a, b}, s3, es[3]);
    var s5 := Next({a, b}, s4, es[4]);
    Unroll({a, b}, s4, es[4..]);
    Unroll({a, b}, s3, es[3..]);
    Unroll({a, b}, s2, es[2..]);
    Unroll({a, b}, s1, es[1..]);
    Unroll({a, b}, s, es);
    assert After({a, b}, s, es) == s5 && s5.running == {};
  }
}
