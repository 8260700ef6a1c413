/** The work directory that all cluster requests of a daemon share, and the downloads that they write to it. */
module SharedDirectory {
  import opened Common
  import opened Coordinator
  import opened Collection
  import opened ClusterBundle
  import opened Merge

  /** An arrival as the collector of one request handles it. */
  datatype Write = Write(c: Request, a: Arrival)

  ghost predicate AllValid(ws: seq<Write>) {
    forall k :: 0 <= k < |ws| ==> Known(ws[k].c, ws[k].a)
  }

  /** Writes of any requests that share a directory, interleaved in any way. */
  ghost predicate SharedBy(ws: seq<Write>, dir: string) {
    AllValid(ws) && forall k :: 0 <= k < |ws| ==> Named(ws[k].c) && ws[k].c.workDir == dir
  }

  /** A download leaves its archive at the node's path, or something that is no archive. */
  function Saved(c: Request, disk: Disk, a: Arrival): Disk
    requires Known(c, a)
  {
    if !IsAttempted(a) then disk
    else if a.fetch.file.Some? then disk[BundlePath(c, a.status.node) := a.fetch.file.value]
    else disk - {BundlePath(c, a.status.node)}
  }

  /** The disk after all writes. */
  ghost function DiskOf(before: Disk, ws: seq<Write>): Disk
    requires AllValid(ws)
  {
    if ws == [] then before
    else Saved(ws[|ws| - 1].c, DiskOf(before, ws[..|ws| - 1]), ws[|ws| - 1].a)
  }

  predicate HoldsFile(disk: Disk, path: string, file: Option<seq<ZipFile>>) {
    if file.Some? then path in disk && disk[path] == file.value else path !in disk
  }

  /** The write is a download from a node with the address and role of n, by whichever request. */
  predicate Hits(w: Write, n: Node)
    requires Known(w.c, w.a)
  {
    IsAttempted(w.a) && w.c.nodes[w.a.status.node].ip == n.ip && w.c.nodes[w.a.status.node].role == n.role
  }

  /** Write m is the last one that hits n. */
  ghost predicate LastHit(ws: seq<Write>, m: nat, n: Node)
    requires AllValid(ws)
  {
    m < |ws| && Hits(ws[m], n) && forall j :: m < j < |ws| ==> !Hits(ws[j], n)
  }

  lemma {:induction false} FindLastHit(ws: seq<Write>, k: nat, n: Node) returns (m: nat)
    requires AllValid(ws) && k < |ws| && Hits(ws[k], n)
    ensures k <= m && LastHit(ws, m, n)
  {
    if Hits(ws[|ws| - 1], n) {
      m := |ws| - 1;
    } else {
      m := FindLastHit(ws[..|ws| - 1], k, n);
    }
  }

  lemma OtherPath(w: Write, c: Request, i: nat)
    requires Known(w.c, w.a) && Named(w.c) && Named(c) && w.c.workDir == c.workDir && i < |c.nodes|
    ensures IsAttempted(w.a) ==> (BundlePath(w.c, w.a.status.node) == BundlePath(c, i) <==> Hits(w, c.nodes[i]))
  {
    if IsAttempted(w.a) {
      SharedPath(w.c, w.a.status.node, c, i);
    }
  }

  /** The path of a node holds what the last download from that address and role left there, by whichever request. */
  lemma {:induction false} LastDownloadKept(before: Disk, ws: seq<Write>, m: nat, c: Request, i: nat)
    requires SharedBy(ws, c.workDir) && Named(c) && i < |c.nodes| && LastHit(ws, m, c.nodes[i])
    ensures HoldsFile(DiskOf(before, ws), BundlePath(c, i), ws[m].a.fetch.file)
  {
    var last := |ws| - 1;
    OtherPath(ws[last], c, i);
    if m < last {
      LastDownloadKept(before, ws[..last], m, c, i);
    }
  }

  /** A download is still there in the end exactly when the last one from that address and role left the same file. */
  lemma DownloadSurvivesWhen(before: Disk, ws: seq<Write>, k: nat, m: nat, c: Request, i: nat)
    requires SharedBy(ws, c.workDir) && Named(c) && i < |c.nodes|
    requires k < |ws| && ws[k].c == c && Hits(ws[k], c.nodes[i]) && LastHit(ws, m, c.nodes[i])
    ensures HoldsFile(DiskOf(before, ws), BundlePath(c, i), ws[k].a.fetch.file) <==>
            ws[m].a.fetch.file == ws[k].a.fetch.file
  {
    LastDownloadKept(before, ws, m, c, i);
  }

  /** Two requests and one node: the later download is what both find. */
  lemma DownloadReplaced(before: Disk, c: Request, d: Request, i: nat, j: nat, mine: Arrival, theirs: Arrival)
    requires Named(c) && Named(d) && c.workDir == d.workDir && i < |c.nodes| && j < |d.nodes|
    requires c.nodes[i].ip == d.nodes[j].ip && c.nodes[i].role == d.nodes[j].role
    requires Known(c, mine) && IsAttempted(mine) && mine.status.node == i
    requires Known(d, theirs) && IsAttempted(theirs) && theirs.status.node == j
    requires mine.fetch.file != theirs.fetch.file
    ensures !HoldsFile(DiskOf(before, [Write(c, mine), Write(d, theirs)]), BundlePath(c, i), mine.fetch.file)
  {
    var ws := [Write(c, mine), Write(d, theirs)];
    DownloadSurvivesWhen(before, ws, 0, 1, c, i);
  }

  // ---------------------------------------------------------------- one request alone

  ghost function OwnWrites(c: Request, log: seq<Arrival>): seq<Write> {
    seq(|log|, k requires 0 <= k < |log| => Write(c, log[k]))
  }

  /** A request that has the directory to itself finds its own download of each node. */
  lemma DownloadKept(c: Request, before: Disk, log: seq<Arrival>, k: nat)
    requires Named(c) && AllKnown(c, log) && k < |log| && IsAttempted(log[k])
    requires forall j :: k < j < |log| && log[j].status.done ==> log[j].status.node != log[k].status.node
    ensures HoldsFile(DiskOf(before, OwnWrites(c, log)), BundlePath(c, log[k].status.node), log[k].fetch.file)
  {
    LastDownloadKept(before, OwnWrites(c, log), k, c, log[k].status.node);
  }
}
