/** From the run of the coordinator to the contents of the cluster archive. */
module ClusterArchive {
  import opened Common
  import opened Coordinator
  import opened Collection
  import opened ClusterBundle
  import opened SharedDirectory
  import opened Merge
  import opened MergeProperties
  import opened Paths

  /** The directory of a node in the cluster archive. */
  function Directory(n: Node): string {
    n.ip + "_" + n.role
  }

  lemma DirectoryPlain(n: Node)
    requires SLASH !in n.ip && SLASH !in n.role
    ensures Plain(Directory(n))
  {
    assert Directory(n)[|n.ip|] == '_';
  }

  lemma DirectoryOf(c: Request, i: nat)
    requires Named(c) && i < |c.nodes|
    ensures NodePrefix(BundlePath(c, i)) == Directory(c.nodes[i])
  {
    FilenamePlain(c.nodes[i]);
    BaseJoin(c.workDir, NodeBundleFilename(c.nodes[i]));
    var f, d := NodeBundleFilename(c.nodes[i]), Directory(c.nodes[i]);
    assert f == d + ".zip";
    assert f[|f| - 4..] == ".zip" && f[..|f| - 4] == d;
  }

  lemma DirectoriesApart(c: Request, i: nat, j: nat)
    requires Named(c) && i < |c.nodes| && j < |c.nodes| && Directory(c.nodes[i]) == Directory(c.nodes[j])
    ensures i == j
  {
    FilenameAddress(c.nodes[i], c.nodes[j]);
    if i < j {
    } else if j < i {
    }
  }

  function Bases(c: Request): set<string> {
    set i | 0 <= i < |c.nodes| :: Directory(c.nodes[i])
  }

  lemma PathOfNode(c: Request, es: seq<Event>, k: nat) returns (i: nat)
    requires Finished(c, es) && AllKnown(c, Log(c, es)) && k < |Outcome(c, Log(c, es)).paths|
    ensures i < |c.nodes| && Outcome(c, Log(c, es)).paths[k] == BundlePath(c, i)
  {
    OutcomeLists(c, Log(c, es));
    i := Pick(Log(c, es), IsDownloaded)[k];
  }

  /** The directories of the merged files are the plain, different directories of their nodes. */
  lemma MergedDirectories(c: Request, es: seq<Event>)
    requires Finished(c, es) && Named(c)
    ensures AllKnown(c, Log(c, es))
    ensures var ps := Outcome(c, Log(c, es)).paths;
            && (forall k :: 0 <= k < |ps| ==> Cluster().base(ps[k]) in Bases(c))
            && (forall j, k :: 0 <= j < k < |ps| ==> Cluster().base(ps[j]) != Cluster().base(ps[k]))
  {
    PathsDistinct(c, es);
    var ps := Outcome(c, Log(c, es)).paths;
    forall k | 0 <= k < |ps| ensures Cluster().base(ps[k]) in Bases(c) {
      var i := PathOfNode(c, es, k);
      DirectoryOf(c, i);
      assert Cluster().base(ps[k]) == NodePrefix(ps[k]);
    }
    forall j, k | 0 <= j < k < |ps| ensures Cluster().base(ps[j]) != Cluster().base(ps[k]) {
      var m := PathOfNode(c, es, j);
      var n := PathOfNode(c, es, k);
      DirectoryOf(c, m);
      DirectoryOf(c, n);
      assert Cluster().base(ps[j]) == NodePrefix(ps[j]) && Cluster().base(ps[k]) == NodePrefix(ps[k]);
      if Directory(c.nodes[m]) == Directory(c.nodes[n]) {
        DirectoriesApart(c, m, n);
      }
    }
  }

  /** Whatever the disk holds, a node reported Done has the files at its path below its directory; a Failed one has none. */
  lemma FilesOfNode(c: Request, es: seq<Event>, report: Bytes, disk: Disk, i: nat)
    requires Finished(c, es) && Named(c) && i < |c.nodes|
    requires AllKnown(c, Log(c, es))
    requires Gathered(Cluster(), Outcome(c, Log(c, es)).paths, |Outcome(c, Log(c, es)).paths|, disk).Some?
    ensures var o := Outcome(c, Log(c, es));
            var archive := Assembled(Cluster(), report, Gathered(Cluster(), o.paths, |o.paths|, disk).value);
            var out := Select(archive, BelowFn()(Directory(c.nodes[i])));
            && c.nodes[i].ip in o.report
            && if o.report[c.nodes[i].ip].status == Done
               then Some(out) == OwnFiles(Cluster(), BundlePath(c, i), disk)
               else o.report[c.nodes[i].ip].status == Failed && out == []
  {
    var ps := Outcome(c, Log(c, es)).paths;
    var done := NodeOutcome(c, es, i);
    MergedDirectories(c, es);
    forall b | b in Bases(c) ensures Plain(b) {
      var j :| 0 <= j < |c.nodes| && b == Directory(c.nodes[j]);
      DirectoryPlain(c.nodes[j]);
    }
    ClusterSeparates(Bases(c));
    var d := Directory(c.nodes[i]);
    NodesSeparable(Cluster(), BelowFn(), Bases(c), report, ps, disk, d);
    DirectoryOf(c, i);
    if BundlePath(c, i) in ps {
      var k :| 0 <= k < |ps| && ps[k] == BundlePath(c, i);
      assert Cluster().base(ps[k]) == NodePrefix(ps[k]);
    } else {
      forall k | 0 <= k < |ps| ensures Cluster().base(ps[k]) != d {
        var j := PathOfNode(c, es, k);
        DirectoryOf(c, j);
        assert Cluster().base(ps[k]) == NodePrefix(ps[k]);
        if Directory(c.nodes[j]) == d {
          DirectoriesApart(c, i, j);
        }
      }
    }
  }

  // ---------------------------------------------------------------- what was downloaded

  lemma DownloadedFiles(c: Request, disk: Disk, i: nat, zip: Option<seq<ZipFile>>)
    requires Named(c) && i < |c.nodes| && HoldsFile(disk, BundlePath(c, i), zip)
    ensures var own := OwnFiles(Cluster(), BundlePath(c, i), disk);
            own.Some? ==> zip.Some? && AreFilesOf(own.value, zip.value, Directory(c.nodes[i]))
  {
    var p := BundlePath(c, i);
    if OwnFiles(Cluster(), p, disk).Some? {
      DirectoryOf(c, i);
      assert Cluster().base(p) == NodePrefix(p);
      FilesPreserved(Cluster(), disk[p], |disk[p]|, Directory(c.nodes[i]));
    }
  }

  /** The entries are the files of an archive that are no summaries, in order, with their bytes, below a directory. */
  predicate AreFilesOf(out: seq<Entry>, zip: seq<ZipFile>, dir: string) {
    var kept := Kept(Cluster(), zip, |zip|);
    |out| == |kept| && forall m :: 0 <= m < |out| ==> Carries(Cluster(), out[m], Source(dir, kept[m]))
  }

  /** Every download of the run is among the writes. */
  ghost predicate Includes(ws: seq<Write>, c: Request, log: seq<Arrival>) {
    forall k :: 0 <= k < |log| ==> Write(c, log[k]) in ws
  }

  /** The two disks hold the same at a path. */
  predicate SameAt(a: Disk, b: Disk, path: string) {
    if path in a then path in b && a[path] == b[path] else path !in b
  }

  /**
    From any finished run to the cluster archive, node by node. `ws` are the writes of all requests to the
    shared directory until the merge reads the archive of node i. A node reported Done has below its
    directory exactly the files of the archive that the last of these downloads from its address and role
    left, except summaries, in order and with their bytes; a node reported Failed has none.
   */
  lemma ArchiveOfNode(c: Request, es: seq<Event>, report: Bytes, disk: Disk, before: Disk, ws: seq<Write>, i: nat)
    returns (m: nat)
    requires Finished(c, es) && Named(c) && i < |c.nodes| && AllKnown(c, Log(c, es))
    requires SharedBy(ws, c.workDir) && Includes(ws, c, Log(c, es))
    requires SameAt(disk, DiskOf(before, ws), BundlePath(c, i))
    requires var ps := Outcome(c, Log(c, es)).paths; Gathered(Cluster(), ps, |ps|, disk).Some?
    ensures var o, dir := Outcome(c, Log(c, es)), Directory(c.nodes[i]);
            var g := Gathered(Cluster(), o.paths, |o.paths|, disk).value;
            var out := Select(Assembled(Cluster(), report, g), BelowFn()(dir));
            && c.nodes[i].ip in o.report
            && if o.report[c.nodes[i].ip].status == Done
               then LastHit(ws, m, c.nodes[i]) && ws[m].a.fetch.file.Some? && AreFilesOf(out, ws[m].a.fetch.file.value, dir)
               else o.report[c.nodes[i].ip].status == Failed && out == []
  {
    var log := Log(c, es);
    FilesOfNode(c, es, report, disk, i);
    var k := NodeOutcome(c, es, i);
    m := 0;
    if IsAttempted(log[k]) {
      m := LastOf(c, log, k, disk, before, ws);
      DownloadedFiles(c, disk, i, ws[m].a.fetch.file);
    }
  }

  lemma LastOf(c: Request, log: seq<Arrival>, k: nat, disk: Disk, before: Disk, ws: seq<Write>) returns (m: nat)
    requires Named(c) && AllKnown(c, log) && k < |log| && IsAttempted(log[k])
    requires SharedBy(ws, c.workDir) && Includes(ws, c, log)
    requires SameAt(disk, DiskOf(before, ws), BundlePath(c, log[k].status.node))
    ensures LastHit(ws, m, c.nodes[log[k].status.node])
    ensures HoldsFile(disk, BundlePath(c, log[k].status.node), ws[m].a.fetch.file)
  {
    var i := log[k].status.node;
    assert Write(c, log[k]) in ws;
    var w :| 0 <= w < |ws| && ws[w] == Write(c, log[k]);
    m := FindLastHit(ws, w, c.nodes[i]);
    LastDownloadKept(before, ws, m, c, i);
  }

  /** A request that has the directory to itself merges its own downloads: arrival k is the node's done status. */
  lemma ArchiveOfNodeAlone(c: Request, es: seq<Event>, report: Bytes, before: Disk, i: nat) returns (k: nat)
    requires Finished(c, es) && Named(c) && i < |c.nodes| && AllKnown(c, Log(c, es))
    requires var ps := Outcome(c, Log(c, es)).paths;
             Gathered(Cluster(), ps, |ps|, DiskOf(before, OwnWrites(c, Log(c, es)))).Some?
    ensures k < |Log(c, es)| && Log(c, es)[k].status.done && Log(c, es)[k].status.node == i
    ensures var o, dir, zip := Outcome(c, Log(c, es)), Directory(c.nodes[i]), Log(c, es)[k].fetch.file;
            var g := Gathered(Cluster(), o.paths, |o.paths|, DiskOf(before, OwnWrites(c, Log(c, es)))).value;
            var out := Select(Assembled(Cluster(), report, g), BelowFn()(dir));
            && c.nodes[i].ip in o.report
            && if o.report[c.nodes[i].ip].status == Done then zip.Some? && AreFilesOf(out, zip.value, dir)
               else o.report[c.nodes[i].ip].status == Failed && out == []
  {
    var log := Log(c, es);
    var disk := DiskOf(before, OwnWrites(c, log));
    FilesOfNode(c, es, report, disk, i);
    k := NodeOutcome(c, es, i);
    if IsAttempted(log[k]) {
      OwnDownload(c, es, before, i, k);
      DownloadedFiles(c, disk, i, log[k].fetch.file);
    }
  }

  lemma OwnDownload(c: Request, es: seq<Event>, before: Disk, i: nat, k: nat)
    requires Finished(c, es) && Named(c) && i < |c.nodes| && AllKnown(c, Log(c, es))
    requires k < |Log(c, es)| && IsAttempted(Log(c, es)[k]) && Log(c, es)[k].status.node == i
    ensures HoldsFile(DiskOf(before, OwnWrites(c, Log(c, es))), BundlePath(c, i), Log(c, es)[k].fetch.file)
  {
    var only := DoneOf(c, es, i);
    assert k == only;
    DownloadKept(c, before, Log(c, es), k);
  }

  /**
    The cluster archive of any finished run by name: report.json comes first and only once, then the nodes'
    files, and last, exactly when there is error text, the summary.
   */
  lemma LayoutOfRun(c: Request, es: seq<Event>, report: Bytes, disk: Disk, file: seq<Entry>)
    requires Finished(c, es) && Named(c) && AllKnown(c, Log(c, es))
    requires var ps := Outcome(c, Log(c, es)).paths;
             Gathered(Cluster(), ps, |ps|, disk).Some? &&
             file == Assembled(Cluster(), report, Gathered(Cluster(), ps, |ps|, disk).value)
    ensures var ps := Outcome(c, Log(c, es)).paths;
            var text := Gathered(Cluster(), ps, |ps|, disk).value.text;
            && |file| >= 1 && file[0] == Entry("report.json", report)
            && (forall k :: 1 <= k < |file| ==> file[k].name != "report.json")
            && (forall k :: 0 <= k < |file| ==> (file[k].name == "summaryErrorsReport.txt" <==> text != [] && k == |file| - 1))
            && (text != [] ==> file[|file| - 1].data == text)
  {
    var ps := Outcome(c, Log(c, es)).paths;
    forall k | 0 <= k < |ps| ensures Plain(NodePrefix(ps[k])) {
      var i := PathOfNode(c, es, k);
      DirectoryOf(c, i);
      DirectoryPlain(c.nodes[i]);
    }
    ArchiveLayout(report, ps, disk, file);
  }
}
