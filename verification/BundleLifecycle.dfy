/**
  The life of one local bundle id on disk: concurrent create requests, their background collections,
  deletes and queries, each split at its file operations. File operations may fail.
 */
module BundleLifecycle {
  import opened Common

  /**
    The state file. A failed write may leave it empty or cut off. `closeFailed` says whether a failure to
    close the zip or the data file is among the recorded problems.
   */
  datatype StateFile = Absent | Garbled | Stored(status: Status, closeFailed: bool)

  predicate Holds(f: StateFile, status: Status) { f.Stored? && f.status == status }

  /** How a write of the state file ends: done, refused before anything changed, or cut off. */
  datatype Write = Complete | Refused | CutOff

  function Written(before: StateFile, status: Status, closeFailed: bool, w: Write): StateFile {
    match w
    case Complete => Stored(status, closeFailed)
    case Refused => before
    case CutOff => Garbled
  }

  /** The data file: the creates that opened it, and those that closed their zip and the file without an error. */
  datatype DataFile = Missing | Present(writers: set<nat>, closed: set<nat>)

  /** The file holds the finished zip of its one writer. */
  predicate ZipFinished(f: DataFile) {
    f.Present? && |f.writers| == 1 && f.closed == f.writers
  }

  /** Opening the path: a new file, or one more writer of the file that is there. */
  function Opened(f: DataFile, k: nat): DataFile {
    match f
    case Missing => Present({k}, {})
    case Present(ws, cs) => Present(ws + {k}, cs - {k})
  }

  /** The end of a writer; one whose file was removed closes a file without a name. */
  function Closed(f: DataFile, k: nat, ok: bool): DataFile {
    if ok && f.Present? && k in f.writers then f.(closed := f.closed + {k}) else f
  }

  /** A create request and the goroutines it starts. */
  datatype Creator =
    | Checked                      // no bundle directory was found
    | DirMade
    | StartedWritten
    | DataFailed                   // the data file could not be created
    | Collecting                   // the collectors write the zip
    | Expired                      // they still do, but the creation context has ended
    | Offering(clean: bool)        // zip and data file are closed, cleanly or not, and the errors are offered
    | Ended(offered: Option<bool>) // how the zip was closed when its errors were received

  /** A delete request: it has read a status that needs the data file, found a bundle to delete, or removed the file. */
  datatype DeleteStep = StateRead | Approved | Removed

  /** `closeFailed` is what it has read. */
  datatype Deleter = Deleter(step: DeleteStep, closeFailed: bool)

  datatype State = State(
    dir: bool, stored: StateFile, data: DataFile,
    creators: seq<Creator>, deleters: seq<Deleter>,
    created: nat)                  // how often the bundle directory was set up

  function Init(): State { State(false, Absent, Missing, [], [], 0) }

  /** A status that is reported whether or not there is a data file. */
  predicate NeedsNoData(st: Status) { st == Deleted || st == Canceled || st == Unknown || st == Failed }

  /**
    getBundleState: the reported status, and whether it comes without an error. `read` is the state file
    when it is read and `data` whether the data file is there when, later, it is looked for.
   */
  function Report(read: StateFile, data: bool): (r: (Status, bool))
    ensures r.0 == Started || r.0 == InProgress || r.0 == Done ==> data && Holds(read, r.0)
    ensures r.1 ==> Holds(read, r.0)
    ensures !r.1 ==> r.0 == Unknown && (read.Stored? ==> !data && (read.status == Started || read.status == InProgress || read.status == Done))
  {
    match read
    case Stored(st, _) =>
      if NeedsNoData(st) then (st, true)
      else if !data then (Unknown, false)
      else (st, true)
    case _ => (Unknown, false)
  }

  /** GetFile sends the data file. */
  predicate Served(read: StateFile, data: bool) { Report(read, data) == (Done, true) }

  datatype Event =
    | BeginCreate
    | MakeDir(k: nat, ok: bool)
    | WriteStarted(k: nat, w: Write)
    | CreateData(k: nat, ok: bool)
    | WriteFailed(k: nat, w: Write)
    | CloseZip(k: nat, ok: bool)
    | WriteDone(k: nat, w: Write)
    | Expire(k: nat)               // the creation context ends first
    | BeginDelete                  // the state file is read
    | FindData(d: nat)             // the data file is looked for
    | RemoveData(d: nat, ok: bool)
    | WriteDeleted(d: nat, w: Write)

  predicate At(s: State, k: nat, c: Creator) { k < |s.creators| && s.creators[k] == c }

  predicate DeleterAt(s: State, d: nat, p: DeleteStep) { d < |s.deleters| && s.deleters[d].step == p }

  predicate Enabled(s: State, e: Event) {
    match e
    case BeginCreate => !s.dir
    case MakeDir(k, _) => At(s, k, Checked)
    case WriteStarted(k, _) => At(s, k, DirMade)
    case CreateData(k, _) => At(s, k, StartedWritten)
    case WriteFailed(k, _) => At(s, k, DataFailed)
    case CloseZip(k, _) => At(s, k, Collecting) || At(s, k, Expired)
    case WriteDone(k, _) => k < |s.creators| && s.creators[k].Offering?
    case Expire(k) => k < |s.creators| && (s.creators[k] == Collecting || s.creators[k].Offering?)
    case BeginDelete => s.dir && s.stored.Stored? && s.stored.status != Deleted && s.stored.status != Canceled
    case FindData(d) => DeleterAt(s, d, StateRead)
    case RemoveData(d, ok) => DeleterAt(s, d, Approved) && (ok ==> s.data.Present?)
    case WriteDeleted(d, _) => DeleterAt(s, d, Removed)
  }

  function Move(s: State, k: nat, c: Creator): State
    requires k < |s.creators|
  {
    s.(creators := s.creators[k := c])
  }

  function Drop(s: State, d: nat): State
    requires d < |s.deleters|
  {
    s.(deleters := s.deleters[..d] + s.deleters[d + 1..])
  }

  function Advance(s: State, d: nat, p: DeleteStep): State
    requires d < |s.deleters|
  {
    s.(deleters := s.deleters[d := s.deleters[d].(step := p)])
  }

  function Next(s: State, e: Event): State
    requires Enabled(s, e)
  {
    match e
    case BeginCreate => s.(creators := s.creators + [Checked])
    case MakeDir(k, ok) =>
      if ok then Move(s, k, DirMade).(dir := true, created := s.created + 1) else Move(s, k, Ended(None))
    case WriteStarted(k, w) =>
      Move(s, k, if w.Complete? then StartedWritten else Ended(None)).(stored := Written(s.stored, Started, false, w))
    case CreateData(k, ok) =>
      if ok then Move(s, k, Collecting).(data := Opened(s.data, k)) else Move(s, k, DataFailed)
    case WriteFailed(k, w) => Move(s, k, Ended(None)).(stored := Written(s.stored, Failed, false, w))
    case CloseZip(k, ok) =>
      Move(s, k, if s.creators[k] == Collecting then Offering(ok) else Ended(None)).(data := Closed(s.data, k, ok))
    case WriteDone(k, w) =>
      var clean := s.creators[k].clean;
      Move(s, k, Ended(Some(clean))).(stored := Written(s.stored, Done, !clean, w))
    case Expire(k) => Move(s, k, if s.creators[k] == Collecting then Expired else Ended(None))
    case BeginDelete =>
      s.(deleters := s.deleters +
           [Deleter(if NeedsNoData(s.stored.status) then Approved else StateRead, s.stored.closeFailed)])
    case FindData(d) => if s.data.Present? then Advance(s, d, Approved) else Drop(s, d)
    case RemoveData(d, ok) => if ok then Advance(s, d, Removed).(data := Missing) else Drop(s, d)
    case WriteDeleted(d, w) => Drop(s, d).(stored := Written(s.stored, Deleted, s.deleters[d].closeFailed, w))
  }

  predicate Run(s: State, es: seq<Event>)
    decreases |es|
  {
    es == [] || (Enabled(s, es[0]) && Run(Next(s, es[0]), es[1..]))
  }

  function After(s: State, es: seq<Event>): State
    requires Run(s, es)
    decreases |es|
  {
    if es == [] then s else After(Next(s, es[0]), es[1..])
  }

  // ---------------------------------------------------------------- a stored Done

  /** Some create offered its errors after closing its zip cleanly, or not. */
  ghost predicate SomeClosed(s: State, clean: bool) {
    exists k :: 0 <= k < |s.creators| && s.creators[k] == Ended(Some(clean))
  }

  /** The state file and the data file come after the directory; a stored Done comes after a closing step. */
  ghost predicate Inv(s: State) {
    && (s.stored != Absent || s.data.Present? || s.deleters != [] ==> s.dir)
    && (s.dir <==> s.created > 0)
    && (Holds(s.stored, Done) ==> SomeClosed(s, !s.stored.closeFailed))
    && (forall k :: 0 <= k < |s.creators| && s.creators[k] != Checked && s.creators[k] != Ended(None) ==> s.dir)
  }

  lemma StepKeepsInv(s: State, e: Event)
    requires Inv(s) && Enabled(s, e)
    ensures Inv(Next(s, e))
  {
    var t := Next(s, e);
    if Holds(s.stored, Done) {
      var k :| 0 <= k < |s.creators| && s.creators[k] == Ended(Some(!s.stored.closeFailed));
      assert t.creators[k] == s.creators[k];
    }
    if e.WriteDone? {
      assert t.creators[e.k] == Ended(Some(s.creators[e.k].clean));
    }
  }

  lemma {:induction false} RunKeepsInv(s: State, es: seq<Event>)
    requires Inv(s) && Run(s, es)
    ensures Inv(After(s, es))
    decreases |es|
  {
    if es != [] {
      StepKeepsInv(s, es[0]);
      RunKeepsInv(Next(s, es[0]), es[1..]);
    }
  }

  /** Whatever happens, a stored Done means that a collection had closed its zip before, with the recorded outcome. */
  lemma DoneAfterClose(es: seq<Event>)
    requires Run(Init(), es) && Holds(After(Init(), es).stored, Done)
    ensures SomeClosed(After(Init(), es), !After(Init(), es).stored.closeFailed)
  {
    RunKeepsInv(Init(), es);
  }

  // ---------------------------------------------------------------- serialised creates

  /** No create request starts while another is between its check and its directory. */
  ghost predicate Serial(s: State, es: seq<Event>)
    requires Run(s, es)
    decreases |es|
  {
    es == [] ||
    ((es[0].BeginCreate? ==> Checked !in s.creators) && Serial(Next(s, es[0]), es[1..]))
  }

  /** One create owns the data file, and all others have failed at once. */
  ghost predicate Owns(s: State, k: nat) {
    && k < |s.creators| && s.data.Present? && s.data.writers == {k} && s.data.closed <= {k}
    && OwnerAt(s.creators[k], k in s.data.closed)
    && forall i :: 0 <= i < |s.creators| && i != k ==> s.creators[i] == Ended(None)
  }

  /** Where the owner is, when its zip has been closed cleanly or not. */
  predicate OwnerAt(c: Creator, clean: bool) {
    match c
    case Collecting => !clean
    case Expired => !clean
    case Offering(b) => b == clean
    case Ended(Some(b)) => b == clean
    case Ended(None) => true
    case _ => false
  }

  /** At most one create request has ever got past its check without failing at once. */
  ghost predicate OneCreator(s: State) {
    && s.created <= 1
    && (s.created == 1 ==> Checked !in s.creators)
    && (forall j, k :: 0 <= j < k < |s.creators| ==> s.creators[j] == Ended(None) || s.creators[k] == Ended(None))
  }

  ghost predicate Owned(s: State) { s.data.Present? ==> exists k :: Owns(s, k) }

  lemma StepKeepsOne(s: State, e: Event)
    requires Inv(s) && OneCreator(s) && Enabled(s, e) && (e.BeginCreate? ==> Checked !in s.creators)
    ensures OneCreator(Next(s, e))
  {
    if e.MakeDir? {
      assert s.creators[e.k] == Checked;
    } else if e.BeginCreate? {
      assert forall k :: 0 <= k < |s.creators| ==> s.creators[k] == Ended(None);
    }
  }

  lemma OwnerKeeps(s: State, e: Event, k: nat)
    requires Inv(s) && Owns(s, k) && Enabled(s, e) && Next(s, e).data.Present?
    ensures Owns(Next(s, e), k)
  {
    if e.CloseZip? {
      assert e.k == k;
    }
  }

  lemma StepKeepsOwned(s: State, e: Event)
    requires Inv(s) && OneCreator(s) && Owned(s) && Enabled(s, e)
    ensures Owned(Next(s, e))
  {
    var t := Next(s, e);
    if s.data.Present? {
      var k :| Owns(s, k);
      if t.data.Present? {
        OwnerKeeps(s, e, k);
      }
    } else if t.data.Present? {
      assert Owns(t, e.k);
    }
  }

  lemma {:induction false} RunKeepsOne(s: State, es: seq<Event>)
    requires Inv(s) && OneCreator(s) && Owned(s) && Run(s, es) && Serial(s, es)
    ensures Inv(After(s, es)) && OneCreator(After(s, es)) && Owned(After(s, es))
    decreases |es|
  {
    if es != [] {
      StepKeepsInv(s, es[0]);
      StepKeepsOne(s, es[0]);
      StepKeepsOwned(s, es[0]);
      RunKeepsOne(Next(s, es[0]), es[1..]);
    }
  }

  ghost predicate AllEnded(s: State) {
    s.dir && forall k :: 0 <= k < |s.creators| ==> s.creators[k].Ended?
  }

  lemma {:induction false} EndedStay(s: State, es: seq<Event>)
    requires AllEnded(s) && Run(s, es)
    ensures AllEnded(After(s, es)) && (After(s, es).data.Present? ==> After(s, es).data == s.data)
    decreases |es|
  {
    if es != [] {
      EndedStay(Next(s, es[0]), es[1..]);
    }
  }

  lemma DoneEnded(s: State)
    requires Inv(s) && OneCreator(s) && Holds(s.stored, Done)
    ensures AllEnded(s)
  {
    var c :| 0 <= c < |s.creators| && s.creators[c] == Ended(Some(!s.stored.closeFailed));
    forall k | 0 <= k < |s.creators| ensures s.creators[k].Ended? {
      assert k == c || s.creators[k] == Ended(None);
    }
  }

  /**
    With serialised creates an id is set up at most once. A file is served only if it is there when it is
    looked for, and no create works on it any more, whatever happens after the state file was read.
   */
  lemma SerialCreates(es: seq<Event>, more: seq<Event>)
    requires Run(Init(), es) && Serial(Init(), es) && Run(After(Init(), es), more)
    ensures After(Init(), es).created <= 1
    ensures Served(After(Init(), es).stored, After(After(Init(), es), more).data.Present?) ==>
              After(After(Init(), es), more).data.Present? && AllEnded(After(After(Init(), es), more))
  {
    RunKeepsOne(Init(), es);
    var s := After(Init(), es);
    if Holds(s.stored, Done) {
      DoneEnded(s);
      EndedStay(s, more);
    }
  }

  /** A served file is a finished zip exactly when no close failure was recorded with Done. */
  lemma ServedZip(es: seq<Event>, more: seq<Event>)
    requires Run(Init(), es) && Serial(Init(), es) && Run(After(Init(), es), more)
    requires Served(After(Init(), es).stored, After(After(Init(), es), more).data.Present?)
    ensures ZipFinished(After(After(Init(), es), more).data) <==> !After(Init(), es).stored.closeFailed
  {
    var s := After(Init(), es);
    RunKeepsOne(Init(), es);
    DoneEnded(s);
    EndedStay(s, more);
    var k :| Owns(s, k);
    var c :| 0 <= c < |s.creators| && s.creators[c] == Ended(Some(!s.stored.closeFailed));
    assert c == k;
    assert ZipFinished(s.data) <==> k in s.data.closed;
  }

  /** A zip that could not be closed is stored as Done all the same, and served. */
  lemma UnfinishedZipServed()
    ensures var es := [BeginCreate, MakeDir(0, true), WriteStarted(0, Complete), CreateData(0, true),
                       CloseZip(0, false), WriteDone(0, Complete)];
            && Run(Init(), es) && Served(After(Init(), es).stored, After(Init(), es).data.Present?)
            && !ZipFinished(After(Init(), es).data)
  {
    var es := [BeginCreate, MakeDir(0, true), WriteStarted(0, Complete), CreateData(0, true),
               CloseZip(0, false), WriteDone(0, Complete)];
    var collecting := State(true, Stored(Started, false), Present({0}, {}), [Collecting], [], 1);
    assert es == [BeginCreate, MakeDir(0, true), WriteStarted(0, Complete), CreateData(0, true)] + es[4..];
    Created(collecting, es[4..]);
    TwoSteps(collecting, CloseZip(0, false), WriteDone(0, Complete));
    assert es[4..] == [CloseZip(0, false), WriteDone(0, Complete)];
  }

  /** Two create requests that both check before either makes the directory set the id up twice. */
  lemma RacingCreates()
    ensures var es := [BeginCreate, BeginCreate, MakeDir(0, true), MakeDir(1, true)];
            Run(Init(), es) && After(Init(), es).created == 2
  {
    var s1 := Next(Init(), BeginCreate);
    var s2 := Next(s1, BeginCreate);
    var s3 := Next(s2, MakeDir(0, true));
    var es := [BeginCreate, BeginCreate, MakeDir(0, true), MakeDir(1, true)];
    Unroll(Init(), es);
    Unroll(s1, es[1..]);
    Unroll(s2, es[2..]);
    Unroll(s3, es[3..]);
  }

  lemma {:induction false} SetUpOnce(s: State, es: seq<Event>)
    requires s.dir && Checked !in s.creators && Run(s, es)
    ensures After(s, es).created == s.created
    decreases |es|
  {
    if es != [] {
      SetUpOnce(Next(s, es[0]), es[1..]);
    }
  }

  /** Once the directory is there, it can be set up again exactly when a create is still past its check only. */
  lemma SetUpAgainWhen(s: State)
    requires s.dir
    ensures (exists more :: Run(s, more) && After(s, more).created > s.created) <==> Checked in s.creators
  {
    if Checked in s.creators {
      var k :| 0 <= k < |s.creators| && s.creators[k] == Checked;
      OneStep(s, MakeDir(k, true));
    } else {
      forall more | Run(s, more) ensures After(s, more).created == s.created {
        SetUpOnce(s, more);
      }
    }
  }

  lemma Unroll(s: State, es: seq<Event>)
    requires es != [] && Enabled(s, es[0])
    ensures Run(Next(s, es[0]), es[1..]) ==> Run(s, es) && After(s, es) == After(Next(s, es[0]), es[1..])
  {
  }

  // ---------------------------------------------------------------- how a bundle comes to be Done

  /** A create that has neither ended nor failed nor run out of its time. */
  predicate MayFinish(c: Creator) { !c.Ended? && c != Expired && c != DataFailed }

  lemma {:induction false} NeverDone(s: State, es: seq<Event>)
    requires s.dir && !Holds(s.stored, Done) && (forall k :: 0 <= k < |s.creators| ==> !MayFinish(s.creators[k])) && Run(s, es)
    ensures !Holds(After(s, es).stored, Done)
    decreases |es|
  {
    if es != [] {
      NeverDone(Next(s, es[0]), es[1..]);
    }
  }

  /** The rest of an undisturbed create. */
  lemma FinishCreate(s: State, k: nat) returns (es: seq<Event>)
    requires k < |s.creators| && MayFinish(s.creators[k])
    ensures Run(s, es) && Holds(After(s, es).stored, Done)
    decreases match s.creators[k]
              case Checked => 4 case DirMade => 3 case StartedWritten => 2 case Collecting => 1 case _ => 0
  {
    var e := match s.creators[k]
      case Checked => MakeDir(k, true)
      case DirMade => WriteStarted(k, Complete)
      case StartedWritten => CreateData(k, true)
      case Collecting => CloseZip(k, true)
      case _ => WriteDone(k, Complete);
    if s.creators[k].Offering? {
      es := [e];
      OneStep(s, e);
    } else {
      var rest := FinishCreate(Next(s, e), k);
      es := [e] + rest;
      Unroll(s, es);
    }
  }

  predicate MakesDone(s: State, es: seq<Event>) { Run(s, es) && Holds(After(s, es).stored, Done) }

  predicate SomeMayFinish(s: State) { exists k :: 0 <= k < |s.creators| && MayFinish(s.creators[k]) }

  /** Once the directory is there and Done is not stored, it can still come to be exactly when some create may finish. */
  lemma DoneWhen(s: State)
    requires s.dir && !Holds(s.stored, Done)
    ensures (exists more :: MakesDone(s, more)) <==> SomeMayFinish(s)
  {
    if SomeMayFinish(s) {
      var k :| 0 <= k < |s.creators| && MayFinish(s.creators[k]);
      var more := FinishCreate(s, k);
      assert MakesDone(s, more);
    } else {
      forall more | Run(s, more) ensures !MakesDone(s, more) {
        NeverDone(s, more);
      }
    }
  }

  /** A create whose context ends first leaves Started behind, and no continuation makes it Done. */
  lemma StartedForGood()
    ensures var es := [BeginCreate, MakeDir(0, true), WriteStarted(0, Complete), CreateData(0, true), Expire(0)];
            && Run(Init(), es) && Holds(After(Init(), es).stored, Started)
            && forall more :: !MakesDone(After(Init(), es), more)
  {
    var es := [BeginCreate, MakeDir(0, true), WriteStarted(0, Complete), CreateData(0, true), Expire(0)];
    var s4 := State(true, Stored(Started, false), Present({0}, {}), [Collecting], [], 1);
    assert es == [BeginCreate, MakeDir(0, true), WriteStarted(0, Complete), CreateData(0, true)] + es[4..];
    Created(s4, es[4..]);
    OneStep(s4, Expire(0));
    assert es[4..] == [Expire(0)];
    DoneWhen(After(Init(), es));
  }

  /** The collectors go on after the context has ended: the zip can still be finished, behind a bundle that stays Started. */
  lemma LateZip(s: State, k: nat)
    requires At(s, k, Collecting) && s.data == Present({k}, {}) && Holds(s.stored, Started)
    ensures var es := [Expire(k), CloseZip(k, true)];
            Run(s, es) && ZipFinished(After(s, es).data) && After(s, es).stored == s.stored && At(After(s, es), k, Ended(None))
  {
    TwoSteps(s, Expire(k), CloseZip(k, true));
    assert {} + {k} == {k};
  }

  // ---------------------------------------------------------------- Deleted

  /** A create that can still write the state file. */
  predicate Active(c: Creator) { !c.Ended? && c != Expired }

  predicate PendingCreate(cs: seq<Creator>) { exists k :: 0 <= k < |cs| && Active(cs[k]) }

  /** A delete that can get past its removal. */
  predicate PendingDelete(ds: seq<Deleter>, data: bool) {
    exists d :: 0 <= d < |ds| && (ds[d].step == Removed || data)
  }

  /** Something in flight can still write the state file. */
  predicate PendingWriter(s: State) { PendingCreate(s.creators) || PendingDelete(s.deleters, s.data.Present?) }

  /** Then only deletes that find no data file can still happen, and collections past their time can close their zip. */
  lemma OnlyRefusals(s: State, e: Event)
    requires s.dir && Holds(s.stored, Deleted) && !PendingWriter(s) && Enabled(s, e)
    ensures if e.CloseZip? then s.creators[e.k] == Expired else (e.FindData? || (e.RemoveData? && !e.ok)) && Next(s, e) == Drop(s, e.d)
  {
    if e.CloseZip? || e.MakeDir? || e.WriteStarted? || e.CreateData? || e.WriteFailed? || e.WriteDone? || e.Expire? {
      assert !Active(s.creators[e.k]);
    }
  }

  lemma StaysQuiet(s: State, e: Event)
    requires s.dir && Holds(s.stored, Deleted) && !PendingWriter(s) && Enabled(s, e)
    ensures Next(s, e).stored == s.stored && !PendingWriter(Next(s, e))
  {
    OnlyRefusals(s, e);
    if e.CloseZip? {
      EndQuiet(s.creators, e.k);
    } else {
      DropQuiet(s.deleters, e.d, s.data.Present?);
    }
  }

  lemma EndQuiet(cs: seq<Creator>, k: nat)
    requires !PendingCreate(cs) && k < |cs|
    ensures !PendingCreate(cs[k := Ended(None)])
  {
    assert forall i :: 0 <= i < |cs| ==> !Active(cs[i]);
  }

  lemma DropQuiet(ds: seq<Deleter>, d: nat, data: bool)
    requires !PendingDelete(ds, data) && d < |ds|
    ensures !PendingDelete(ds[..d] + ds[d + 1..], data)
  {
    var rest := ds[..d] + ds[d + 1..];
    forall i | 0 <= i < |rest| ensures rest[i].step != Removed && !data {
      assert rest[i] == ds[if i < d then i else i + 1];
    }
  }

  lemma {:induction false} DeletedStays(s: State, es: seq<Event>)
    requires s.dir && Holds(s.stored, Deleted) && !PendingWriter(s) && Run(s, es)
    ensures After(s, es).stored == s.stored && After(s, es).created == s.created
    ensures After(s, es).data.Present? == s.data.Present?
    decreases |es|
  {
    if es != [] {
      OnlyRefusals(s, es[0]);
      StaysQuiet(s, es[0]);
      DeletedStays(Next(s, es[0]), es[1..]);
    }
  }

  /** A bundle that is stored as Deleted, Canceled or Failed is reported so, with or without a data file. */
  lemma FinalReported(es: seq<Event>, data: bool)
    requires Run(Init(), es)
    requires var f := After(Init(), es).stored; Holds(f, Deleted) || Holds(f, Canceled) || Holds(f, Failed)
    ensures Report(After(Init(), es).stored, data) == (After(Init(), es).stored.status, true)
  {
  }

  /** What an event does to the state file: each write stores its own status, leaves a refused write's file alone, or cuts it off. */
  lemma StateWrites(s: State, e: Event)
    requires Enabled(s, e)
    ensures var t := Next(s, e).stored;
            match e
            case WriteStarted(_, w) => (w.Complete? ==> Holds(t, Started)) && (w.Refused? ==> t == s.stored) && (w.CutOff? ==> t == Garbled)
            case WriteFailed(_, w) => (w.Complete? ==> Holds(t, Failed)) && (w.Refused? ==> t == s.stored) && (w.CutOff? ==> t == Garbled)
            case WriteDone(_, w) => (w.Complete? ==> Holds(t, Done)) && (w.Refused? ==> t == s.stored) && (w.CutOff? ==> t == Garbled)
            case WriteDeleted(_, w) => (w.Complete? ==> Holds(t, Deleted)) && (w.Refused? ==> t == s.stored) && (w.CutOff? ==> t == Garbled)
            case _ => t == s.stored
  {
  }

  /** A create that cannot make its directory, or cannot write its state, ends there: it leaves the data file alone and is never at work again. */
  lemma GivesUp(s: State, e: Event, more: seq<Event>)
    requires Enabled(s, e) && Run(Next(s, e), more)
    requires (e.MakeDir? && !e.ok) || (e.WriteStarted? && !e.w.Complete?) || e.WriteFailed?
    ensures Next(s, e).data == s.data
    ensures e.k < |After(Next(s, e), more).creators| && After(Next(s, e), more).creators[e.k] == Ended(None)
  {
    EndedForGood(Next(s, e), more, e.k);
  }

  lemma {:induction false} EndedForGood(s: State, es: seq<Event>, k: nat)
    requires Run(s, es) && At(s, k, Ended(None))
    ensures At(After(s, es), k, Ended(None))
    decreases |es|
  {
    if es != [] {
      EndedForGood(Next(s, es[0]), es[1..], k);
    }
  }

  /** A create that cannot open its data file is reported Failed. */
  lemma FailedCreateReported(s: State, k: nat)
    requires At(s, k, StartedWritten)
    ensures var es := [CreateData(k, false), WriteFailed(k, Complete)];
            Run(s, es) && forall data :: Report(After(s, es).stored, data) == (Failed, true)
  {
    TwoSteps(s, CreateData(k, false), WriteFailed(k, Complete));
  }

  /** A delete sets to work on every bundle with a readable state, except one that is Deleted or Canceled already. */
  lemma DeleteBeginsWhen(s: State)
    ensures Enabled(s, BeginDelete) <==>
              s.dir && (Holds(s.stored, Started) || Holds(s.stored, InProgress) || Holds(s.stored, Done) ||
                        Holds(s.stored, Failed) || Holds(s.stored, Unknown))
  {
  }

  /** A delete that nothing disturbs: the data file goes, and the bundle is reported Deleted from then on. */
  lemma DeleteReported(s: State)
    requires s.dir && s.data.Present? && (Holds(s.stored, Started) || Holds(s.stored, InProgress) || Holds(s.stored, Done))
    ensures var d := |s.deleters|;
            var es := [BeginDelete, FindData(d), RemoveData(d, true), WriteDeleted(d, Complete)];
            && Run(s, es) && After(s, es).data == Missing && After(s, es).deleters == s.deleters
            && Report(After(s, es).stored, false) == (Deleted, true) && After(s, es).stored.closeFailed == s.stored.closeFailed
  {
    var d := |s.deleters|;
    var es := [BeginDelete, FindData(d), RemoveData(d, true), WriteDeleted(d, Complete)];
    var s1 := Next(s, BeginDelete);
    var s2 := Next(s1, FindData(d));
    assert es[1..] == [FindData(d), RemoveData(d, true), WriteDeleted(d, Complete)];
    assert es[1..][1..] == [RemoveData(d, true), WriteDeleted(d, Complete)];
    assert s2.deleters == s.deleters + [Deleter(Approved, s.stored.closeFailed)];
    RemoveAndMark(s2, d);
    Unroll(s1, es[1..]);
    Unroll(s, es);
  }

  lemma RemoveAndMark(s: State, d: nat)
    requires s.data.Present? && |s.deleters| == d + 1 && s.deleters[d].step == Approved
    ensures var es := [RemoveData(d, true), WriteDeleted(d, Complete)];
            && Run(s, es) && After(s, es).data == Missing && After(s, es).deleters == s.deleters[..d]
            && After(s, es).stored == Stored(Deleted, s.deleters[d].closeFailed)
  {
    TwoSteps(s, RemoveData(d, true), WriteDeleted(d, Complete));
  }

  /** How a create that can still write changes a stored Deleted. */
  function Overwrite(c: Creator, k: nat): seq<Event> {
    match c
    case Checked => [MakeDir(k, true), WriteStarted(k, Complete)]
    case DirMade => [WriteStarted(k, Complete)]
    case StartedWritten => [CreateData(k, false), WriteFailed(k, Complete)]
    case DataFailed => [WriteFailed(k, Complete)]
    case Collecting => [CloseZip(k, true), WriteDone(k, Complete)]
    case Offering(_) => [WriteDone(k, Complete)]
    case _ => []
  }

  lemma CreatorOverwrites(s: State, k: nat)
    requires k < |s.creators| && Active(s.creators[k])
    ensures Run(s, Overwrite(s.creators[k], k))
    ensures !Holds(After(s, Overwrite(s.creators[k], k)).stored, Deleted)
  {
    match s.creators[k]
    case Checked => TwoSteps(s, MakeDir(k, true), WriteStarted(k, Complete));
    case DirMade => OneStep(s, WriteStarted(k, Complete));
    case StartedWritten => TwoSteps(s, CreateData(k, false), WriteFailed(k, Complete));
    case DataFailed => OneStep(s, WriteFailed(k, Complete));
    case Collecting => TwoSteps(s, CloseZip(k, true), WriteDone(k, Complete));
    case Offering(_) => OneStep(s, WriteDone(k, Complete));
  }

  lemma OneStep(s: State, e: Event)
    requires Enabled(s, e)
    ensures Run(s, [e]) && After(s, [e]) == Next(s, e)
  {
    Unroll(s, [e]);
  }

  lemma TwoSteps(s: State, e: Event, f: Event)
    requires Enabled(s, e) && Enabled(Next(s, e), f)
    ensures Run(s, [e, f]) && After(s, [e, f]) == Next(Next(s, e), f)
  {
    OneStep(Next(s, e), f);
    assert [e, f][1..] == [f];
    Unroll(s, [e, f]);
  }

  lemma DeleterOverwrites(s: State, d: nat) returns (es: seq<Event>)
    requires d < |s.deleters| && (s.deleters[d].step == Removed || s.data.Present?)
    ensures Run(s, es) && !Holds(After(s, es).stored, Deleted)
  {
    if s.deleters[d].step == Removed {
      es := [WriteDeleted(d, CutOff)];
      OneStep(s, WriteDeleted(d, CutOff));
    } else if s.deleters[d].step == Approved {
      es := [RemoveData(d, true), WriteDeleted(d, CutOff)];
      TwoSteps(s, RemoveData(d, true), WriteDeleted(d, CutOff));
    } else {
      var t := Next(s, FindData(d));
      es := [FindData(d), RemoveData(d, true), WriteDeleted(d, CutOff)];
      TwoSteps(t, RemoveData(d, true), WriteDeleted(d, CutOff));
      assert es[1..] == [RemoveData(d, true), WriteDeleted(d, CutOff)];
      Unroll(s, es);
    }
  }

  /** A stored Deleted is final exactly when no writer is pending. */
  lemma DeletedFinal(es: seq<Event>)
    requires Run(Init(), es) && Holds(After(Init(), es).stored, Deleted)
    ensures (forall more :: Run(After(Init(), es), more) ==> Holds(After(After(Init(), es), more).stored, Deleted))
            <==> !PendingWriter(After(Init(), es))
  {
    var s := After(Init(), es);
    RunKeepsInv(Init(), es);
    if !PendingWriter(s) {
      forall more | Run(s, more) ensures Holds(After(s, more).stored, Deleted) {
        DeletedStays(s, more);
      }
    } else if k :| 0 <= k < |s.creators| && Active(s.creators[k]) {
      CreatorOverwrites(s, k);
    } else {
      var d :| 0 <= d < |s.deleters| && (s.deleters[d].step == Removed || s.data.Present?);
      var more := DeleterOverwrites(s, d);
    }
  }

  /** A delete during collection: the collection stores Done over Deleted, and the id is then reported Unknown. */
  lemma DeletedThenDone()
    ensures var es := [BeginCreate, MakeDir(0, true), WriteStarted(0, Complete), CreateData(0, true),
                       BeginDelete, FindData(0), RemoveData(0, true), WriteDeleted(0, Complete), CloseZip(0, true), WriteDone(0, Complete)];
            && Run(Init(), es)
            && Holds(After(Init(), es).stored, Done) && !After(Init(), es).data.Present?
            && Report(After(Init(), es).stored, After(Init(), es).data.Present?) == (Unknown, false)
  {
    var es := [BeginCreate, MakeDir(0, true), WriteStarted(0, Complete), CreateData(0, true),
               BeginDelete, FindData(0), RemoveData(0, true), WriteDeleted(0, Complete), CloseZip(0, true), WriteDone(0, Complete)];
    var collecting := State(true, Stored(Started, false), Present({0}, {}), [Collecting], [], 1);
    var deleted := State(true, Stored(Deleted, false), Missing, [Collecting], [], 1);
    Created(collecting, es[4..]);
    DeletedNext(collecting, deleted, es[8..]);
    Unroll(deleted, es[8..]);
    Unroll(Next(deleted, es[8]), es[9..]);
    assert es == [BeginCreate, MakeDir(0, true), WriteStarted(0, Complete), CreateData(0, true)] + es[4..];
    assert es[4..] == [BeginDelete, FindData(0), RemoveData(0, true), WriteDeleted(0, Complete)] + es[8..];
  }

  lemma Created(collecting: State, rest: seq<Event>)
    requires collecting == State(true, Stored(Started, false), Present({0}, {}), [Collecting], [], 1)
    ensures var es := [BeginCreate, MakeDir(0, true), WriteStarted(0, Complete), CreateData(0, true)] + rest;
            Run(collecting, rest) ==> Run(Init(), es) && After(Init(), es) == After(collecting, rest)
  {
    var es := [BeginCreate, MakeDir(0, true), WriteStarted(0, Complete), CreateData(0, true)] + rest;
    var s1 := Next(Init(), es[0]);
    var s2 := Next(s1, es[1]);
    var s3 := Next(s2, es[2]);
    assert Next(s3, es[3]) == collecting;
    assert es[4..] == rest;
    Unroll(s3, es[3..]);
    Unroll(s2, es[2..]);
    Unroll(s1, es[1..]);
    Unroll(Init(), es);
  }

  lemma DeletedNext(collecting: State, deleted: State, rest: seq<Event>)
    requires collecting == State(true, Stored(Started, false), Present({0}, {}), [Collecting], [], 1)
    requires deleted == State(true, Stored(Deleted, false), Missing, [Collecting], [], 1)
    ensures var es := [BeginDelete, FindData(0), RemoveData(0, true), WriteDeleted(0, Complete)] + rest;
            Run(deleted, rest) ==> Run(collecting, es) && After(collecting, es) == After(deleted, rest)
  {
    var es := [BeginDelete, FindData(0), RemoveData(0, true), WriteDeleted(0, Complete)] + rest;
    var s1 := Next(collecting, es[0]);
    var s2 := Next(s1, es[1]);
    var s3 := Next(s2, es[2]);
    assert Next(s3, es[3]) == deleted;
    assert es[4..] == rest;
    Unroll(s3, es[3..]);
    Unroll(s2, es[2..]);
    Unroll(s1, es[1..]);
    Unroll(collecting, es);
  }
}
