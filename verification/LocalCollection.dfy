/** Collecting a local bundle: every collector ends up as an entry of the zip or as an error. */
module LocalCollection {
  import opened Common

  const SUMMARY_FILE: string := "summaryErrorsReport.txt"

  /** Texts are byte strings, as in Go. */
  datatype Outcome = CollectFailed(err: Bytes) | Opened(data: Bytes)

  /** What the zip writer does with an entry. */
  datatype Fault = NoFault | NotCreated(err: Bytes) | CutOff(kept: nat, err: Bytes)

  datatype Collector = Collector(name: string, optional: bool, outcome: Outcome, fault: Fault)

  datatype Problem =
    | CouldNotCollect(name: string, err: Bytes)
    | CouldNotCreate(name: string, err: Bytes)
    | CouldNotCopy(name: string, err: Bytes)
    | ContextEnded
    | CouldNotClose(err: Bytes)

  /** The parts of a run that are decided outside: when the context ends, how errors are written out, and the last steps' failures. */
  datatype World = World(endsBefore: nat, text: seq<Problem> -> Bytes, summary: Fault,
                         zipClose: Option<Bytes>, fileClose: Option<Bytes>)

  // ---------------------------------------------------------------- one collector

  /** What is copied into the entry: for an optional collector that failed, its error text. */
  function Content(c: Collector): Bytes {
    if c.outcome.Opened? then c.outcome.data else c.outcome.err
  }

  predicate Starts(c: Collector) { c.outcome.Opened? || c.optional }

  function Cut(b: Bytes, f: Fault): Bytes {
    if f.CutOff? && f.kept < |b| then b[..f.kept] else b
  }

  function EntryOf(c: Collector): seq<Entry> {
    if Starts(c) && !c.fault.NotCreated? then [Entry(c.name, Cut(Content(c), c.fault))] else []
  }

  function ProblemOf(c: Collector): Option<Problem> {
    if !Starts(c) then Some(CouldNotCollect(c.name, c.outcome.err))
    else match c.fault
      case NoFault => None
      case NotCreated(e) => Some(CouldNotCreate(c.name, e))
      case CutOff(_, e) => Some(CouldNotCopy(c.name, e))
  }

  /** Problems of optional collectors are not reported. */
  function Reported(c: Collector): seq<Problem> {
    if ProblemOf(c).Some? && !c.optional then [ProblemOf(c).value] else []
  }

  function Entries(cs: seq<Collector>, n: nat): seq<Entry>
    requires n <= |cs|
  {
    if n == 0 then [] else Entries(cs, n - 1) + EntryOf(cs[n - 1])
  }

  function Problems(cs: seq<Collector>, n: nat): seq<Problem>
    requires n <= |cs|
  {
    if n == 0 then [] else Problems(cs, n - 1) + Reported(cs[n - 1])
  }

  class Zip {
    var entries: seq<Entry>

    constructor ()
      ensures entries == []
    {
      entries := [];
    }

    method Add(name: string, data: Bytes, f: Fault) returns (ok: bool)
      modifies this
      ensures ok == !f.NotCreated?
      ensures entries == old(entries) + if ok then [Entry(name, Cut(data, f))] else []
    {
      ok := !f.NotCreated?;
      if ok {
        entries := entries + [Entry(name, Cut(data, f))];
      }
    }
  }

  method Collect(c: Collector, zip: Zip) returns (err: Option<Problem>)
    modifies zip
    ensures err == ProblemOf(c)
    ensures zip.entries == old(zip.entries) + EntryOf(c)
  {
    var rc;
    if c.outcome.CollectFailed? {
      if !c.optional {
        return Some(CouldNotCollect(c.name, c.outcome.err));
      }
      rc := c.outcome.err;
    } else {
      rc := c.outcome.data;
    }
    var ok := zip.Add(c.name, rc, c.fault);
    if !ok {
      return Some(CouldNotCreate(c.name, c.fault.err));
    }
    if c.fault.CutOff? {
      return Some(CouldNotCopy(c.name, c.fault.err));
    }
    return None;
  }

  // ---------------------------------------------------------------- all collectors

  function Reached(cs: seq<Collector>, w: World): nat {
    if w.endsBefore < |cs| then w.endsBefore else |cs|
  }

  function LoopProblems(cs: seq<Collector>, w: World): seq<Problem> {
    Problems(cs, Reached(cs, w)) + if w.endsBefore < |cs| then [ContextEnded] else []
  }

  function SummaryOf(ps: seq<Problem>, w: World): seq<Entry> {
    if ps != [] && !w.summary.NotCreated? then [Entry(SUMMARY_FILE, Cut(w.text(ps), w.summary))] else []
  }

  function LateProblems(ps: seq<Problem>, w: World): seq<Problem> {
    (if ps != [] && w.summary.NotCreated? then [CouldNotCreate(SUMMARY_FILE, w.summary.err)]
     else if ps != [] && w.summary.CutOff? then [CouldNotCopy(SUMMARY_FILE, w.summary.err)] else []) +
    (if w.zipClose.Some? then [CouldNotClose(w.zipClose.value)] else []) +
    (if w.fileClose.Some? then [CouldNotClose(w.fileClose.value)] else [])
  }

  /** The loop of collectAll. */
  method RunCollectors(cs: seq<Collector>, endsBefore: nat, zip: Zip) returns (errors: seq<Problem>, reached: nat)
    requires zip.entries == []
    modifies zip
    ensures reached == if endsBefore < |cs| then endsBefore else |cs|
    ensures zip.entries == Entries(cs, reached)
    ensures errors == Problems(cs, reached) + if endsBefore < |cs| then [ContextEnded] else []
  {
    errors := [];
    reached := 0;
    while reached < |cs|
      invariant reached <= |cs| && reached <= endsBefore
      invariant zip.entries == Entries(cs, reached) && errors == Problems(cs, reached)
    {
      if reached >= endsBefore {
        errors := errors + [ContextEnded];
        break;
      }
      var err := Collect(cs[reached], zip);
      if err.Some? && !cs[reached].optional {
        errors := errors + [err.value];
      }
      reached := reached + 1;
    }
  }

  /** collectAll: the zip it leaves and the errors it sends when it is done. */
  method CollectAll(cs: seq<Collector>, w: World) returns (zip: Zip, errors: seq<Problem>)
    ensures zip.entries == Entries(cs, Reached(cs, w)) + SummaryOf(LoopProblems(cs, w), w)
    ensures errors == LoopProblems(cs, w) + LateProblems(LoopProblems(cs, w), w)
  {
    zip := new Zip();
    var loop, reached := RunCollectors(cs, w.endsBefore, zip);
    errors := loop;
    if |errors| != 0 {
      var ok := zip.Add(SUMMARY_FILE, w.text(errors), w.summary);
      if !ok {
        errors := errors + [CouldNotCreate(SUMMARY_FILE, w.summary.err)];
      } else if w.summary.CutOff? {
        errors := errors + [CouldNotCopy(SUMMARY_FILE, w.summary.err)];
      }
    }
    if w.zipClose.Some? {
      errors := errors + [CouldNotClose(w.zipClose.value)];
    }
    if w.fileClose.Some? {
      errors := errors + [CouldNotClose(w.fileClose.value)];
    }
    assert errors == loop + LateProblems(loop, w);
  }

  // ---------------------------------------------------------------- accounting

  function Pick(cs: seq<Collector>, n: nat, p: Collector -> bool): seq<Collector>
    requires n <= |cs|
  {
    if n == 0 then [] else Pick(cs, n - 1, p) + if p(cs[n - 1]) then [cs[n - 1]] else []
  }

  /** The collectors that become entries: those that opened, and optional ones that failed. */
  function StartsFn(): Collector -> bool { (c: Collector) => c.outcome.Opened? || c.optional }

  /** The collectors that become errors: required ones that failed. */
  function FailsFn(): Collector -> bool { (c: Collector) => c.outcome.CollectFailed? && !c.optional }

  ghost predicate NoFaults(cs: seq<Collector>) {
    forall k :: 0 <= k < |cs| ==> cs[k].fault.NoFault?
  }

  /**
    Without zip failures each collector is either an entry with its whole content, or, when it is required
    and failed, an error; both in order, none lost and none twice.
   */
  lemma {:induction false} Accounted(cs: seq<Collector>, n: nat)
    requires n <= |cs| && NoFaults(cs)
    ensures var es, kept := Entries(cs, n), Pick(cs, n, StartsFn());
            && |es| == |kept|
            && forall k :: 0 <= k < |es| ==>
                 && es[k].name == kept[k].name
                 && match kept[k].outcome
                    case Opened(data) => es[k].data == data
                    case CollectFailed(err) => kept[k].optional && es[k].data == err
    ensures var ps, failed := Problems(cs, n), Pick(cs, n, FailsFn());
            && |ps| == |failed|
            && forall k :: 0 <= k < |ps| ==>
                 && failed[k].outcome.CollectFailed? && !failed[k].optional
                 && ps[k] == CouldNotCollect(failed[k].name, failed[k].outcome.err)
    ensures |Entries(cs, n)| + |Problems(cs, n)| == n
  {
    if n > 0 {
      Accounted(cs, n - 1);
      CleanOne(cs[n - 1]);
    }
  }

  /** A collector whose entry can be written. */
  lemma CleanOne(c: Collector)
    requires c.fault.NoFault?
    ensures c.outcome.Opened? ==> EntryOf(c) == [Entry(c.name, c.outcome.data)] && Reported(c) == []
    ensures c.outcome.CollectFailed? && c.optional ==> EntryOf(c) == [Entry(c.name, c.outcome.err)] && Reported(c) == []
    ensures c.outcome.CollectFailed? && !c.optional ==>
              EntryOf(c) == [] && Reported(c) == [CouldNotCollect(c.name, c.outcome.err)]
  {
  }

  /** A collector whose entry cannot be created or is cut off: an error unless it is optional, and what was copied stays. */
  lemma FaultyOne(c: Collector)
    requires c.outcome.Opened? || c.optional
    ensures c.fault.NotCreated? ==>
              EntryOf(c) == [] && Reported(c) == if c.optional then [] else [CouldNotCreate(c.name, c.fault.err)]
    ensures c.fault.CutOff? ==>
              && |EntryOf(c)| == 1 && EntryOf(c)[0].name == c.name
              && EntryOf(c)[0].data <= (match c.outcome case Opened(data) => data case CollectFailed(err) => err)
              && |EntryOf(c)[0].data| <= c.fault.kept
              && (|EntryOf(c)[0].data| == c.fault.kept ||
                  EntryOf(c)[0].data == (match c.outcome case Opened(data) => data case CollectFailed(err) => err))
              && Reported(c) == if c.optional then [] else [CouldNotCopy(c.name, c.fault.err)]
  {
  }

  /** When the context ends, the collectors from then on leave nothing, and the end itself is the last error of the loop. */
  lemma CutShort(cs: seq<Collector>, w: World)
    requires w.endsBefore < |cs|
    ensures LoopProblems(cs, w) == Problems(cs, w.endsBefore) + [ContextEnded]
    ensures Reached(cs, w) == w.endsBefore
    ensures w.summary.NoFault? ==>
              SummaryOf(LoopProblems(cs, w), w) == [Entry("summaryErrorsReport.txt", w.text(LoopProblems(cs, w)))]
  {
  }

  /** A summary that cannot be created or is cut off is itself the first of the late errors; without errors it is not tried. */
  lemma SummaryFails(ps: seq<Problem>, w: World)
    ensures ps == [] ==> SummaryOf(ps, w) == [] && forall k :: 0 <= k < |LateProblems(ps, w)| ==> LateProblems(ps, w)[k].CouldNotClose?
    ensures ps != [] && w.summary.NotCreated? ==>
              && SummaryOf(ps, w) == [] && |LateProblems(ps, w)| >= 1
              && LateProblems(ps, w)[0] == CouldNotCreate("summaryErrorsReport.txt", w.summary.err)
    ensures ps != [] && w.summary.CutOff? ==>
              && |SummaryOf(ps, w)| == 1 && SummaryOf(ps, w)[0].data <= w.text(ps) && |LateProblems(ps, w)| >= 1
              && LateProblems(ps, w)[0] == CouldNotCopy("summaryErrorsReport.txt", w.summary.err)
  {
  }

  /** A run with no failure of its own: the summary is there exactly when a required collector failed. */
  lemma CleanRun(cs: seq<Collector>, w: World)
    requires NoFaults(cs) && w.endsBefore >= |cs| && w.summary.NoFault? && w.zipClose.None? && w.fileClose.None?
    ensures LoopProblems(cs, w) + LateProblems(LoopProblems(cs, w), w) == Problems(cs, |cs|)
    ensures SummaryOf(LoopProblems(cs, w), w) ==
              if exists k :: 0 <= k < |cs| && FailsFn()(cs[k]) then [Entry("summaryErrorsReport.txt", w.text(Problems(cs, |cs|)))] else []
  {
    var ps := Problems(cs, |cs|);
    assert LoopProblems(cs, w) == ps + [] == ps;
    assert LateProblems(ps, w) == [];
    SummaryWhen(ps, w);
    SomeProblem(cs, |cs|);
  }

  lemma SummaryWhen(ps: seq<Problem>, w: World)
    requires w.summary.NoFault?
    ensures ps == [] ==> SummaryOf(ps, w) == []
    ensures ps != [] ==> SummaryOf(ps, w) == [Entry("summaryErrorsReport.txt", w.text(ps))]
  {
  }

  lemma {:induction false} SomeProblem(cs: seq<Collector>, n: nat)
    requires n <= |cs| && NoFaults(cs)
    ensures Problems(cs, n) != [] <==> exists k :: 0 <= k < n && FailsFn()(cs[k])
  {
    if n > 0 {
      SomeProblem(cs, n - 1);
      CleanOne(cs[n - 1]);
      if Problems(cs, n - 1) != [] {
        var k :| 0 <= k < n - 1 && FailsFn()(cs[k]);
      } else {
        assert forall k :: 0 <= k < n - 1 ==> !FailsFn()(cs[k]);
      }
    }
  }

  lemma {:induction false} NoCloseProblem(cs: seq<Collector>, n: nat)
    requires n <= |cs|
    ensures forall k :: 0 <= k < |Problems(cs, n)| ==> !Problems(cs, n)[k].CouldNotClose?
  {
    if n > 0 {
      NoCloseProblem(cs, n - 1);
    }
  }

  /** The errors that are sent tell of a close failure exactly when the zip or the data file could not be closed. */
  lemma CloseRecorded(cs: seq<Collector>, w: World)
    ensures var all := LoopProblems(cs, w) + LateProblems(LoopProblems(cs, w), w);
            (exists k :: 0 <= k < |all| && all[k].CouldNotClose?) <==> w.zipClose.Some? || w.fileClose.Some?
  {
    var loop := LoopProblems(cs, w);
    var late := LateProblems(loop, w);
    NoCloseProblem(cs, Reached(cs, w));
    assert forall k :: 0 <= k < |loop| ==> !loop[k].CouldNotClose?;
    LateClose(loop, w);
    if k :| 0 <= k < |late| && late[k].CouldNotClose? {
      assert (loop + late)[|loop| + k] == late[k];
    }
  }

  lemma LateClose(ps: seq<Problem>, w: World)
    ensures var late := LateProblems(ps, w);
            (exists k :: 0 <= k < |late| && late[k].CouldNotClose?) <==> w.zipClose.Some? || w.fileClose.Some?
    ensures var late := LateProblems(ps, w);
            && (w.fileClose.Some? ==> |late| >= 1 && late[|late| - 1] == CouldNotClose(w.fileClose.value))
            && (w.zipClose.Some? && w.fileClose.None? ==> |late| >= 1 && late[|late| - 1] == CouldNotClose(w.zipClose.value))
            && (w.zipClose.Some? && w.fileClose.Some? ==> |late| >= 2 && late[|late| - 2] == CouldNotClose(w.zipClose.value))
  {
    var late := LateProblems(ps, w);
    if w.zipClose.Some? || w.fileClose.Some? {
      assert late[|late| - 1].CouldNotClose?;
    }
  }
}
