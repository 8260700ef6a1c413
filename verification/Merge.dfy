/**
  Merging the node archives into the cluster archive. The loops are proved for any naming scheme;
  `Cluster()` is the scheme of the source.
 */
module Merge {
  import opened Common
  import opened Paths

  type Disk = map<string, seq<ZipFile>>

  datatype Failure = NoOutput | CannotOpen(path: string) | CannotRead(name: string) | IllegalPath(name: string) | CannotCreate(name: string)

  /** Names in the output: the two files of its own, and where a file of a node's archive goes. */
  datatype Naming = Naming(
    report: string,
    summary: string,
    base: string -> string,                       // directory of the archive at a path
    dest: (string, string) -> Option<string>)     // name and directory of a file to its output name

  function TrimSuffix(s: string, suffix: string): string {
    if |suffix| <= |s| && s[|s| - |suffix|..] == suffix then s[..|s| - |suffix|] else s
  }

  /** The directory that the files of the archive at `path` get in the output. */
  function NodePrefix(path: string): string {
    TrimSuffix(Base(path), ".zip")
  }

  function Destination(name: string, base: string): Option<string> {
    var r := SanitizeExtractPath(name, base);
    if r.Ok? then Some(r.value) else None
  }

  function Cluster(): Naming {
    Naming("report.json", "summaryErrorsReport.txt", NodePrefix, Destination)
  }

  /** The writer of the output archive. It accepts `room` entries and then fails. */
  class ZipWriter {
    var entries: seq<Entry>
    const room: nat

    ghost predicate Valid()
      reads this
    {
      |entries| <= room
    }

    constructor (room: nat)
      ensures Valid() && entries == [] && this.room == room
    {
      this.entries := [];
      this.room := room;
    }

    method Add(name: string, data: Bytes) returns (ok: bool)
      requires Valid()
      modifies this
      ensures Valid()
      ensures ok == (|old(entries)| < room)
      ensures entries == old(entries) + if ok then [Entry(name, data)] else []
    {
      ok := |entries| < room;
      if ok {
        entries := entries + [Entry(name, data)];
      }
    }
  }

  // ---------------------------------------------------------------- specification

  /** What the merge does with one file: keep its error text aside, copy it, or give up. */
  datatype Item = Text(text: Bytes) | Copy(entry: Entry) | Bad

  function Classify(nm: Naming, f: ZipFile, base: string): Item {
    if f.content.None? then Bad
    else if f.name == nm.summary then Text(f.content.value)
    else if nm.dest(f.name, base).None? then Bad
    else Copy(Entry(nm.dest(f.name, base).value, f.content.value))
  }

  /** What archives contribute: files to copy and an error text. */
  datatype Parts = Parts(files: seq<Entry>, text: Bytes)

  /** The contribution of the first n files of an archive; the last error text wins. */
  function Extracted(nm: Naming, files: seq<ZipFile>, n: nat, base: string): Option<Parts>
    requires n <= |files|
  {
    if n == 0 then Some(Parts([], []))
    else
      var before := Extracted(nm, files, n - 1, base);
      if before.None? then None
      else
        match Classify(nm, files[n - 1], base)
        case Bad => None
        case Text(t) => Some(Parts(before.value.files, t))
        case Copy(e) => Some(Parts(before.value.files + [e], before.value.text))
  }

  /** The contribution of the archive at a path. */
  function FromPath(nm: Naming, path: string, disk: Disk): Option<Parts> {
    if path in disk then Extracted(nm, disk[path], |disk[path]|, nm.base(path)) else None
  }

  /** The contribution of the first n archives; error texts are joined. */
  function Gathered(nm: Naming, paths: seq<string>, n: nat, disk: Disk): Option<Parts>
    requires n <= |paths|
  {
    if n == 0 then Some(Parts([], []))
    else
      var before, p := Gathered(nm, paths, n - 1, disk), FromPath(nm, paths[n - 1], disk);
      if before.Some? && p.Some? then
        Some(Parts(before.value.files + p.value.files, before.value.text + p.value.text))
      else None
  }

  /** The cluster archive: the report, the nodes' files, and the joined error texts if there are any. */
  function Assembled(nm: Naming, report: Bytes, parts: Parts): seq<Entry> {
    [Entry(nm.report, report)] + parts.files +
    (if parts.text == [] then [] else [Entry(nm.summary, parts.text)])
  }

  /** An archive begins with the report; the files follow, and the summary is last, exactly when there is text. */
  predicate LaidOut(nm: Naming, archive: seq<Entry>, report: Bytes, files: seq<Entry>, text: Bytes) {
    && |archive| == 1 + |files| + (if text == [] then 0 else 1)
    && archive[0] == Entry(nm.report, report)
    && (forall k :: 0 <= k < |files| ==> archive[k + 1] == files[k])
    && (text != [] ==> archive[|archive| - 1] == Entry(nm.summary, text))
  }

  lemma AssembledLaidOut(nm: Naming, report: Bytes, parts: Parts)
    ensures LaidOut(nm, Assembled(nm, report, parts), report, parts.files, parts.text)
  {
    var first, last := [Entry(nm.report, report)], if parts.text == [] then [] else [Entry(nm.summary, parts.text)];
    assert Assembled(nm, report, parts) == first + (parts.files + last);
  }

  lemma {:induction false} ExtractedGrows(nm: Naming, files: seq<ZipFile>, k: nat, n: nat, base: string)
    requires k <= n <= |files| && Extracted(nm, files, n, base).Some?
    ensures Extracted(nm, files, k, base).Some?
    ensures |Extracted(nm, files, k, base).value.files| <= |Extracted(nm, files, n, base).value.files|
  {
    if k < n {
      ExtractedGrows(nm, files, k, n - 1, base);
    }
  }

  lemma {:induction false} GatheredGrows(nm: Naming, paths: seq<string>, k: nat, n: nat, disk: Disk)
    requires k <= n <= |paths| && Gathered(nm, paths, n, disk).Some?
    ensures Gathered(nm, paths, k, disk).Some?
    ensures |Gathered(nm, paths, k, disk).value.files| <= |Gathered(nm, paths, n, disk).value.files|
  {
    if k < n {
      GatheredGrows(nm, paths, k, n - 1, disk);
    }
  }

  // ---------------------------------------------------------------- the loops

  method AddFileToZip(nm: Naming, w: ZipWriter, f: ZipFile, base: string) returns (r: Result<(), Failure>)
    requires w.Valid() && f.name != nm.summary
    modifies w
    ensures w.Valid()
    ensures r.Ok? <==> Classify(nm, f, base).Copy? && |old(w.entries)| < w.room
    ensures w.entries == old(w.entries) + if r.Ok? then [Classify(nm, f, base).entry] else []
    ensures r == Err(CannotRead(f.name)) <==> f.content.None?
    ensures r == Err(IllegalPath(f.name)) <==> f.content.Some? && nm.dest(f.name, base).None?
    ensures r.Err? ==> !r.error.CannotOpen?
  {
    if f.content.None? {
      return Err(CannotRead(f.name));
    }
    var fileName := nm.dest(f.name, base);
    if fileName.None? {
      return Err(IllegalPath(f.name));
    }
    var ok := w.Add(fileName.value, f.content.value);
    if !ok {
      return Err(CannotCreate(fileName.value));
    }
    return Ok(());
  }

  /** Copies one archive below its directory and returns its error text. */
  method AppendToZip(nm: Naming, w: ZipWriter, path: string, disk: Disk) returns (r: Result<Bytes, Failure>)
    requires w.Valid()
    modifies w
    ensures w.Valid()
    ensures var p := FromPath(nm, path, disk);
            && (r.Ok? <==> p.Some? && |old(w.entries)| + |p.value.files| <= w.room)
            && (r.Ok? ==> w.entries == old(w.entries) + p.value.files && r.value == p.value.text)
    ensures r == Err(CannotOpen(path)) <==> path !in disk
  {
    if path !in disk {
      return Err(CannotOpen(path));
    }
    var files, base, rc: Bytes := disk[path], nm.base(path), [];
    for k := 0 to |files|
      invariant w.Valid() && Extracted(nm, files, k, base).Some?
      invariant w.entries == old(w.entries) + Extracted(nm, files, k, base).value.files
      invariant rc == Extracted(nm, files, k, base).value.text
    {
      var f := files[k];
      if Extracted(nm, files, |files|, base).Some? {
        ExtractedGrows(nm, files, k + 1, |files|, base);
      }
      if f.name == nm.summary {
        if f.content.None? {
          return Err(CannotRead(f.name));
        }
        rc := f.content.value;
        continue;
      }
      var added := AddFileToZip(nm, w, f, base);
      if added.Err? {
        return Err(added.error);
      }
    }
    r := Ok(rc);
  }

  /**
    What the operating system does with the output file: whether it can be created, how many entries fit,
    and how the two deferred calls that close the zip and the file end.
   */
  datatype Output = Output(created: bool, room: nat, zipClosed: bool, fileClosed: bool)

  /**
    mergeZips: its result, and the archive that the output file holds in the end (none if it is not
    readable). It succeeds exactly when the file can be created, every input can be read, every name has a
    destination and all fits; the two closes have no say in that. The file is then assembled from all
    inputs, exactly when both closes go well.
   */
  method MergeZips(nm: Naming, out: Output, report: Bytes, paths: seq<string>, disk: Disk)
    returns (r: Result<(), Failure>, file: Option<seq<Entry>>)
    ensures var g := Gathered(nm, paths, |paths|, disk);
            && (r.Ok? <==> out.created && g.Some? && |Assembled(nm, report, g.value)| <= out.room)
            && (r.Ok? ==> (file.Some? <==> out.zipClosed && out.fileClosed))
            && (r.Ok? && file.Some? ==> file.value == Assembled(nm, report, g.value))
            && (r.Ok? && file.Some? ==> LaidOut(nm, file.value, report, g.value.files, g.value.text))
  {
    if !out.created {
      return Err(NoOutput), None;
    }
    var w := new ZipWriter(out.room);
    r := WriteMerged(nm, w, report, paths, disk);
    if r.Ok? {
      AssembledLaidOut(nm, report, Gathered(nm, paths, |paths|, disk).value);
    }
    file := if out.zipClosed && out.fileClosed then Some(w.entries) else None;
  }

  /** A merge that succeeds and leaves no archive. */
  method CloseErrorDropped(report: Bytes) returns (r: Result<(), Failure>, file: Option<seq<Entry>>)
    ensures r.Ok? && file.None?
  {
    r, file := MergeZips(Cluster(), Output(true, 1, false, true), report, [], map[]);
  }

  /** mergeZips between the creation of its output and the deferred closes. */
  method WriteMerged(nm: Naming, w: ZipWriter, report: Bytes, paths: seq<string>, disk: Disk)
    returns (r: Result<(), Failure>)
    requires w.Valid() && w.entries == []
    modifies w
    ensures var g := Gathered(nm, paths, |paths|, disk);
            && (r.Ok? <==> g.Some? && |Assembled(nm, report, g.value)| <= w.room)
            && (r.Ok? ==> w.entries == Assembled(nm, report, g.value))
  {
    var ok := w.Add(nm.report, report);
    if !ok {
      return Err(CannotCreate(nm.report));
    }
    var errorBuffer := AppendAll(nm, w, paths, disk);
    if errorBuffer.Err? {
      return Err(errorBuffer.error);
    }
    r := AddSummary(nm, w, errorBuffer.value);
  }

  /** The loop of mergeZips: appends all archives and joins their error texts. */
  method AppendAll(nm: Naming, w: ZipWriter, paths: seq<string>, disk: Disk) returns (r: Result<Bytes, Failure>)
    requires w.Valid()
    modifies w
    ensures w.Valid()
    ensures var g := Gathered(nm, paths, |paths|, disk);
            && (r.Ok? <==> g.Some? && |old(w.entries)| + |g.value.files| <= w.room)
            && (r.Ok? ==> w.entries == old(w.entries) + g.value.files && r.value == g.value.text)
  {
    var errorBuffer: Bytes := [];
    for k := 0 to |paths|
      invariant w.Valid() && Gathered(nm, paths, k, disk).Some?
      invariant w.entries == old(w.entries) + Gathered(nm, paths, k, disk).value.files
      invariant errorBuffer == Gathered(nm, paths, k, disk).value.text
    {
      if Gathered(nm, paths, |paths|, disk).Some? {
        GatheredGrows(nm, paths, k + 1, |paths|, disk);
      }
      ghost var before := w.entries;
      var rc := AppendToZip(nm, w, paths[k], disk);
      if rc.Err? {
        return Err(rc.error);
      }
      ghost var own := FromPath(nm, paths[k], disk).value.files;
      assert w.entries == before + own == old(w.entries) + (Gathered(nm, paths, k, disk).value.files + own);
      errorBuffer := errorBuffer + rc.value;
    }
    r := Ok(errorBuffer);
  }

  /** The last step of mergeZips: the summary is written only if there is an error text. */
  method AddSummary(nm: Naming, w: ZipWriter, text: Bytes) returns (r: Result<(), Failure>)
    requires w.Valid()
    modifies w
    ensures r.Ok? <==> text == [] || |old(w.entries)| < w.room
    ensures r.Ok? ==> w.entries == old(w.entries) + if text == [] then [] else [Entry(nm.summary, text)]
  {
    if |text| > 0 {
      var ok := w.Add(nm.summary, text);
      if !ok {
        return Err(CannotCreate(nm.summary));
      }
    }
    return Ok(());
  }
}
