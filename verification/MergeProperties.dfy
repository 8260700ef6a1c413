/** What a successful merge preserves. */
module MergeProperties {
  import opened Common
  import opened Paths
  import opened Merge

  // ---------------------------------------------------------------- one archive

  /** The files that are not error summaries, in order. */
  function Kept(nm: Naming, files: seq<ZipFile>, n: nat): seq<ZipFile>
    requires n <= |files|
  {
    if n == 0 then []
    else if files[n - 1].name == nm.summary then Kept(nm, files, n - 1)
    else Kept(nm, files, n - 1) + [files[n - 1]]
  }

  /** An archive is accepted exactly when each file can be read and each kept file has a destination. */
  lemma {:induction false} ExtractedWhen(nm: Naming, files: seq<ZipFile>, n: nat, base: string)
    requires n <= |files|
    ensures Extracted(nm, files, n, base).Some? <==>
              forall k :: 0 <= k < n ==>
                files[k].content.Some? && (files[k].name == nm.summary || nm.dest(files[k].name, base).Some?)
  {
    if n > 0 {
      ExtractedWhen(nm, files, n - 1, base);
    }
  }

  /** Nothing but the summaries is left out, nothing is added or reordered, and no byte changes. */
  lemma {:induction false} FilesPreserved(nm: Naming, files: seq<ZipFile>, n: nat, base: string)
    requires n <= |files| && Extracted(nm, files, n, base).Some?
    ensures var out, kept := Extracted(nm, files, n, base).value.files, Kept(nm, files, n);
            && |out| == |kept|
            && forall k :: 0 <= k < |out| ==>
                 && kept[k].content == Some(out[k].data)
                 && nm.dest(kept[k].name, base) == Some(out[k].name)
  {
    if n > 0 {
      FilesPreserved(nm, files, n - 1, base);
    }
  }

  /** All error texts of an archive, joined. */
  function AllTexts(nm: Naming, files: seq<ZipFile>, n: nat): Bytes
    requires n <= |files|
  {
    if n == 0 then []
    else if files[n - 1].name == nm.summary && files[n - 1].content.Some? then
      AllTexts(nm, files, n - 1) + files[n - 1].content.value
    else AllTexts(nm, files, n - 1)
  }

  ghost predicate EmptySummary(nm: Naming, f: ZipFile) {
    f.name == nm.summary ==> f.content == Some([])
  }

  lemma {:induction false} NoTexts(nm: Naming, files: seq<ZipFile>, n: nat)
    requires n <= |files| && forall k :: 0 <= k < n ==> files[k].content.Some?
    ensures AllTexts(nm, files, n) == [] <==> forall k :: 0 <= k < n ==> EmptySummary(nm, files[k])
  {
    if n > 0 {
      NoTexts(nm, files, n - 1);
    }
  }

  /** Every summary but the last one is empty; in particular, when there is at most one. */
  ghost predicate OneText(nm: Naming, files: seq<ZipFile>, n: nat)
    requires n <= |files|
  {
    forall j, k :: 0 <= j < k < n && files[k].name == nm.summary ==> EmptySummary(nm, files[j])
  }

  /** The error text survives the merge exactly when no archive has text in a summary before its last. */
  lemma {:induction false} TextPreserved(nm: Naming, files: seq<ZipFile>, n: nat, base: string)
    requires n <= |files| && Extracted(nm, files, n, base).Some?
    ensures Extracted(nm, files, n, base).value.text == AllTexts(nm, files, n) <==> OneText(nm, files, n)
  {
    ExtractedWhen(nm, files, n, base);
    if n > 0 {
      TextPreserved(nm, files, n - 1, base);
      NoTexts(nm, files, n - 1);
      if files[n - 1].name == nm.summary {
        var t, before := files[n - 1].content.value, AllTexts(nm, files, n - 1);
        assert t == before + t <==> before == [] by {
          assert |before + t| == |before| + |t|;
        }
        if before == [] {
          assert OneText(nm, files, n);
        }
      }
    }
  }

  /** Two summaries in one archive: the first text is lost. */
  lemma EarlierTextLost(base: string)
    ensures var files := [ZipFile(Cluster().summary, Some([1])), ZipFile(Cluster().summary, Some([2]))];
            Extracted(Cluster(), files, 2, base) == Some(Parts([], [2])) && AllTexts(Cluster(), files, 2) == [1, 2]
  {
    var files := [ZipFile(Cluster().summary, Some([1])), ZipFile(Cluster().summary, Some([2]))];
    assert Extracted(Cluster(), files, 1, base) == Some(Parts([], [1]));
    assert AllTexts(Cluster(), files, 1) == [1];
  }

  // ---------------------------------------------------------------- all archives

  /** The archive at a path can be merged: it opens, each file can be read, each kept file has a destination. */
  ghost predicate Mergeable(nm: Naming, path: string, disk: Disk) {
    path in disk && forall k :: 0 <= k < |disk[path]| ==>
      && disk[path][k].content.Some?
      && (disk[path][k].name == nm.summary || nm.dest(disk[path][k].name, nm.base(path)).Some?)
  }

  lemma {:induction false} GatheredWhen(nm: Naming, paths: seq<string>, n: nat, disk: Disk)
    requires n <= |paths|
    ensures Gathered(nm, paths, n, disk).Some? <==> forall k :: 0 <= k < n ==> Mergeable(nm, paths[k], disk)
  {
    if n > 0 {
      var p := paths[n - 1];
      GatheredWhen(nm, paths, n - 1, disk);
      if p in disk {
        ExtractedWhen(nm, disk[p], |disk[p]|, nm.base(p));
      }
    }
  }

  /** A file to be merged and the directory that it goes to. */
  datatype Source = Source(base: string, file: ZipFile)

  function Placed(base: string, fs: seq<ZipFile>): seq<Source> {
    seq(|fs|, k requires 0 <= k < |fs| => Source(base, fs[k]))
  }

  /** Every file of every archive that is not a summary, in order. */
  function Sources(nm: Naming, paths: seq<string>, n: nat, disk: Disk): seq<Source>
    requires n <= |paths|
  {
    if n == 0 then []
    else Sources(nm, paths, n - 1, disk) +
         if paths[n - 1] in disk then Placed(nm.base(paths[n - 1]), Kept(nm, disk[paths[n - 1]], |disk[paths[n - 1]]|)) else []
  }

  /** An entry of the output holds the bytes of its source under the source's destination. */
  predicate Carries(nm: Naming, e: Entry, s: Source) {
    s.file.content == Some(e.data) && nm.dest(s.file.name, s.base) == Some(e.name)
  }

  /** The merged files are the sources, one for one and in order, with their bytes. */
  lemma {:induction false} AllFilesPreserved(nm: Naming, paths: seq<string>, n: nat, disk: Disk)
    requires n <= |paths| && Gathered(nm, paths, n, disk).Some?
    ensures var out, src := Gathered(nm, paths, n, disk).value.files, Sources(nm, paths, n, disk);
            |out| == |src| && forall k :: 0 <= k < |out| ==> Carries(nm, out[k], src[k])
  {
    if n > 0 {
      var p := paths[n - 1];
      AllFilesPreserved(nm, paths, n - 1, disk);
      FilesPreserved(nm, disk[p], |disk[p]|, nm.base(p));
      var before, own := Gathered(nm, paths, n - 1, disk).value.files, FromPath(nm, p, disk).value.files;
      var src, fs := Sources(nm, paths, n - 1, disk), Placed(nm.base(p), Kept(nm, disk[p], |disk[p]|));
      assert Sources(nm, paths, n, disk) == src + fs;
      assert forall k :: 0 <= k < |own| ==> Carries(nm, own[k], fs[k]);
    }
  }

  /** The error texts of all archives, joined. */
  function JoinedTexts(nm: Naming, paths: seq<string>, n: nat, disk: Disk): Bytes
    requires n <= |paths|
  {
    if n == 0 then []
    else JoinedTexts(nm, paths, n - 1, disk) +
         if paths[n - 1] in disk then AllTexts(nm, disk[paths[n - 1]], |disk[paths[n - 1]]|) else []
  }

  ghost predicate OneTextAt(nm: Naming, path: string, disk: Disk) {
    path in disk ==> OneText(nm, disk[path], |disk[path]|)
  }

  lemma {:induction false} TextNoLonger(nm: Naming, files: seq<ZipFile>, n: nat, base: string)
    requires n <= |files| && Extracted(nm, files, n, base).Some?
    ensures |Extracted(nm, files, n, base).value.text| <= |AllTexts(nm, files, n)|
    ensures |Extracted(nm, files, n, base).value.text| == |AllTexts(nm, files, n)| ==>
              Extracted(nm, files, n, base).value.text == AllTexts(nm, files, n)
  {
    if n > 0 {
      TextNoLonger(nm, files, n - 1, base);
    }
  }

  lemma BothWhole(a: Bytes, b: Bytes, x: Bytes, y: Bytes)
    requires |a| <= |x| && (|a| == |x| ==> a == x)
    requires |b| <= |y| && (|b| == |y| ==> b == y)
    ensures |a + b| <= |x + y| && (|a + b| == |x + y| ==> a + b == x + y)
    ensures a + b == x + y <==> a == x && b == y
  {
    assert |a + b| == |a| + |b| && |x + y| == |x| + |y|;
  }

  /** The summary holds all error texts exactly when no archive has text in a summary before its last. */
  lemma {:induction false} AllTextsPreserved(nm: Naming, paths: seq<string>, n: nat, disk: Disk)
    requires n <= |paths| && Gathered(nm, paths, n, disk).Some?
    ensures var text, all := Gathered(nm, paths, n, disk).value.text, JoinedTexts(nm, paths, n, disk);
            && |text| <= |all| && (|text| == |all| ==> text == all)
            && (text == all <==> forall k :: 0 <= k < n ==> OneTextAt(nm, paths[k], disk))
  {
    if n > 0 {
      var p := paths[n - 1];
      var text, all := Gathered(nm, paths, n - 1, disk).value.text, JoinedTexts(nm, paths, n - 1, disk);
      var own, ownAll := FromPath(nm, p, disk).value.text, AllTexts(nm, disk[p], |disk[p]|);
      AllTextsPreserved(nm, paths, n - 1, disk);
      TextPreserved(nm, disk[p], |disk[p]|, nm.base(p));
      TextNoLonger(nm, disk[p], |disk[p]|, nm.base(p));
      BothWhole(text, own, all, ownAll);
      assert Gathered(nm, paths, n, disk).value.text == text + own && JoinedTexts(nm, paths, n, disk) == all + ownAll;
      assert own == ownAll <==> OneTextAt(nm, paths[n - 1], disk);
    }
  }

  // ---------------------------------------------------------------- separating the nodes again

  function Select(es: seq<Entry>, p: Entry -> bool): seq<Entry> {
    if es == [] then [] else (if p(es[0]) then [es[0]] else []) + Select(es[1..], p)
  }

  lemma {:induction false} SelectConcat(a: seq<Entry>, b: seq<Entry>, p: Entry -> bool)
    ensures Select(a + b, p) == Select(a, p) + Select(b, p)
  {
    if a == [] {
      assert a + b == b;
    } else {
      var h, s, t := if p(a[0]) then [a[0]] else [], Select(a[1..], p), Select(b, p);
      SelectConcat(a[1..], b, p);
      assert (a + b)[0] == a[0] && (a + b)[1..] == a[1..] + b;
      assert Select(a + b, p) == h + (s + t);
      assert h + (s + t) == (h + s) + t;
    }
  }

  lemma {:induction false} SelectAll(es: seq<Entry>, p: Entry -> bool)
    ensures (forall e :: e in es ==> p(e)) ==> Select(es, p) == es
    ensures (forall e :: e in es ==> !p(e)) ==> Select(es, p) == []
  {
    if es != [] {
      SelectAll(es[1..], p);
      assert es == [es[0]] + es[1..];
    }
  }

  /** A naming scheme that keeps the files of different directories and the two own files apart. */
  ghost predicate Separating(nm: Naming, below: string -> Entry -> bool, bases: set<string>) {
    && (forall b, e: Entry :: b in bases && (e.name == nm.report || e.name == nm.summary) ==> !below(b)(e))
    && (forall b, b2, name, data ::
          b in bases && b2 in bases && nm.dest(name, b).Some? ==>
            (below(b2)(Entry(nm.dest(name, b).value, data)) <==> b2 == b))
  }

  lemma {:induction false} ExtractedBelow(nm: Naming, below: string -> Entry -> bool, bases: set<string>,
                                          files: seq<ZipFile>, n: nat, b: string, b2: string)
    requires Separating(nm, below, bases) && b in bases && b2 in bases
    requires n <= |files| && Extracted(nm, files, n, b).Some?
    ensures forall e :: e in Extracted(nm, files, n, b).value.files ==> (below(b2)(e) <==> b2 == b)
  {
    if n > 0 {
      ExtractedBelow(nm, below, bases, files, n - 1, b, b2);
    }
  }

  /** In the gathered files, those below the directory of one archive are that archive's, in order. */
  lemma {:induction false} GatheredBelow(nm: Naming, below: string -> Entry -> bool, bases: set<string>,
                                         paths: seq<string>, n: nat, disk: Disk, b: string)
    requires Separating(nm, below, bases) && b in bases
    requires n <= |paths| && Gathered(nm, paths, n, disk).Some?
    requires forall k :: 0 <= k < |paths| ==> nm.base(paths[k]) in bases
    requires forall j, k :: 0 <= j < k < |paths| ==> nm.base(paths[j]) != nm.base(paths[k])
    ensures var out := Select(Gathered(nm, paths, n, disk).value.files, below(b));
            && (forall k :: 0 <= k < n && nm.base(paths[k]) == b ==> Some(out) == OwnFiles(nm, paths[k], disk))
            && ((forall k :: 0 <= k < n ==> nm.base(paths[k]) != b) ==> out == [])
  {
    if n > 0 {
      var p := paths[n - 1];
      GatheredBelow(nm, below, bases, paths, n - 1, disk, b);
      var before, own := Gathered(nm, paths, n - 1, disk).value.files, FromPath(nm, p, disk).value.files;
      SelectConcat(before, own, below(b));
      ExtractedBelow(nm, below, bases, disk[p], |disk[p]|, nm.base(p), b);
      SelectAll(own, below(b));
      if nm.base(p) == b {
        assert forall k :: 0 <= k < n - 1 ==> nm.base(paths[k]) != nm.base(paths[n - 1]);
        assert [] + own == own;
      } else {
        assert Select(before, below(b)) + [] == Select(before, below(b));
      }
    }
  }

  function OwnFiles(nm: Naming, path: string, disk: Disk): Option<seq<Entry>> {
    var p := FromPath(nm, path, disk);
    if p.Some? then Some(p.value.files) else None
  }

  /** The files of each node can be read back from the cluster archive, complete and in order. */
  lemma NodesSeparable(nm: Naming, below: string -> Entry -> bool, bases: set<string>,
                       report: Bytes, paths: seq<string>, disk: Disk, b: string)
    requires Separating(nm, below, bases) && b in bases
    requires Gathered(nm, paths, |paths|, disk).Some?
    requires forall k :: 0 <= k < |paths| ==> nm.base(paths[k]) in bases
    requires forall j, k :: 0 <= j < k < |paths| ==> nm.base(paths[j]) != nm.base(paths[k])
    ensures var out := Select(Assembled(nm, report, Gathered(nm, paths, |paths|, disk).value), below(b));
            && (forall k :: 0 <= k < |paths| && nm.base(paths[k]) == b ==> Some(out) == OwnFiles(nm, paths[k], disk))
            && ((forall k :: 0 <= k < |paths| ==> nm.base(paths[k]) != b) ==> out == [])
  {
    var g := Gathered(nm, paths, |paths|, disk).value;
    GatheredBelow(nm, below, bases, paths, |paths|, disk, b);
    var first, last := [Entry(nm.report, report)], if g.text == [] then [] else [Entry(nm.summary, g.text)];
    SelectConcat(first + g.files, last, below(b));
    SelectConcat(first, g.files, below(b));
    SelectAll(first, below(b));
    SelectAll(last, below(b));
    var out := Select(g.files, below(b));
    assert [] + out + [] == out;
  }

  // ---------------------------------------------------------------- the source's naming

  /** The entry is in the directory `base` of the archive. */
  predicate Below(base: string, e: Entry) {
    |Split(e.name)| >= 2 && Split(e.name)[0] == base
  }

  function BelowFn(): string -> Entry -> bool {
    (b: string) => (e: Entry) => Below(b, e)
  }

  lemma TopLevel(b: string, e: Entry)
    requires e.name == Cluster().report || e.name == Cluster().summary
    ensures !Below(b, e)
  {
    SplitPlain(e.name);
  }

  /** Where the files of an archive go: an accepted name leads from the node's directory as it did in the archive. */
  lemma DestinationMeans(name: string, base: string, dir: seq<string>)
    requires Plain(base)
    ensures Cluster().dest(name, base).Some? <==> Accepted(name, base)
    ensures Cluster().dest(name, base).Some? ==>
              && Target(Cluster().dest(name, base).value, dir) == Walk(dir + [base], Split(name))
              && Split(Cluster().dest(name, base).value)[0] == base
              && forall c :: c in Split(Cluster().dest(name, base).value) ==> Plain(c)
  {
    SanitizeExact(name, base);
    assert Cluster().dest(name, base) == Destination(name, base);
    if Destination(name, base).Some? {
      AcceptedTarget(name, base, dir);
    }
  }

  /** An ordinary file keeps its name below the directory of its node. */
  lemma OrdinaryDestination(cs: seq<string>, base: string)
    requires Plain(base) && cs != [] && forall k :: 0 <= k < |cs| ==> Plain(cs[k])
    ensures Cluster().dest(JoinSlash(cs), base) == Some(base + "/" + JoinSlash(cs))
  {
    OrdinaryName(cs, base);
    assert Cluster().dest(JoinSlash(cs), base) == Destination(JoinSlash(cs), base);
    assert "/" == [SLASH];
  }

  /** Every gathered file is below the directory of some archive. */
  lemma {:induction false} GatheredInside(nm: Naming, below: string -> Entry -> bool, bases: set<string>,
                                          paths: seq<string>, n: nat, disk: Disk)
    requires Separating(nm, below, bases) && forall k :: 0 <= k < |paths| ==> nm.base(paths[k]) in bases
    requires n <= |paths| && Gathered(nm, paths, n, disk).Some?
    ensures forall e :: e in Gathered(nm, paths, n, disk).value.files ==> exists b :: b in bases && below(b)(e)
  {
    if n > 0 {
      var p := paths[n - 1];
      GatheredInside(nm, below, bases, paths, n - 1, disk);
      ExtractedBelow(nm, below, bases, disk[p], |disk[p]|, nm.base(p), nm.base(p));
    }
  }

  /**
    The cluster archive by name: report.json comes first and only once, the summary last and only once, and
    exactly when there is error text; all between are the nodes' files.
   */
  lemma ArchiveLayout(report: Bytes, paths: seq<string>, disk: Disk, file: seq<Entry>)
    requires forall k :: 0 <= k < |paths| ==> Plain(NodePrefix(paths[k]))
    requires Gathered(Cluster(), paths, |paths|, disk).Some?
    requires file == Assembled(Cluster(), report, Gathered(Cluster(), paths, |paths|, disk).value)
    ensures var g := Gathered(Cluster(), paths, |paths|, disk).value;
            && |file| == 1 + |g.files| + (if g.text == [] then 0 else 1)
            && file[0] == Entry("report.json", report)
            && (forall k :: 1 <= k < |file| ==> file[k].name != "report.json")
            && (forall k :: 0 <= k < |file| ==> (file[k].name == "summaryErrorsReport.txt" <==> g.text != [] && k == |file| - 1))
            && (forall k :: 0 <= k < |g.files| ==> file[k + 1] == g.files[k])
            && (g.text != [] ==> file[|file| - 1].data == g.text)
  {
    NoOwnNames(paths, disk);
    OwnNames();
    LayoutByName(report, Gathered(Cluster(), paths, |paths|, disk).value, file);
  }

  lemma NoOwnNames(paths: seq<string>, disk: Disk)
    requires forall k :: 0 <= k < |paths| ==> Plain(NodePrefix(paths[k]))
    requires Gathered(Cluster(), paths, |paths|, disk).Some?
    ensures var fs := Gathered(Cluster(), paths, |paths|, disk).value.files;
            forall k :: 0 <= k < |fs| ==> !IsOwnName(fs[k].name)
  {
    var bases := set k | 0 <= k < |paths| :: NodePrefix(paths[k]);
    forall k | 0 <= k < |paths| ensures Cluster().base(paths[k]) in bases {
      assert Cluster().base(paths[k]) == NodePrefix(paths[k]);
    }
    ClusterSeparates(bases);
    GatheredApart(Cluster(), BelowFn(), bases, paths, disk);
  }

  lemma GatheredApart(nm: Naming, below: string -> Entry -> bool, bases: set<string>, paths: seq<string>, disk: Disk)
    requires Separating(nm, below, bases) && forall k :: 0 <= k < |paths| ==> nm.base(paths[k]) in bases
    requires Gathered(nm, paths, |paths|, disk).Some?
    ensures var fs := Gathered(nm, paths, |paths|, disk).value.files;
            forall k :: 0 <= k < |fs| ==> fs[k].name != nm.report && fs[k].name != nm.summary
  {
    GatheredInside(nm, below, bases, paths, |paths|, disk);
    var fs := Gathered(nm, paths, |paths|, disk).value.files;
    forall k | 0 <= k < |fs| ensures fs[k].name != nm.report && fs[k].name != nm.summary {
      assert fs[k] in fs;
      var b :| b in bases && below(b)(fs[k]);
    }
  }

  predicate IsOwnName(name: string) { name == Cluster().report || name == Cluster().summary }

  lemma OwnNames()
    ensures Cluster().report == "report.json" && Cluster().summary == "summaryErrorsReport.txt"
    ensures Cluster().report != Cluster().summary
  {
    assert Cluster().report[0] == 'r' && Cluster().summary[0] == 's';
  }

  lemma LayoutByName(report: Bytes, g: Parts, file: seq<Entry>)
    requires file == Assembled(Cluster(), report, g) && Cluster().report != Cluster().summary
    requires forall k :: 0 <= k < |g.files| ==> !IsOwnName(g.files[k].name)
    ensures LaidOut(Cluster(), file, report, g.files, g.text)
    ensures forall k :: 1 <= k < |file| ==> file[k].name != Cluster().report
    ensures forall k :: 0 <= k < |file| ==> (file[k].name == Cluster().summary <==> g.text != [] && k == |file| - 1)
  {
    AssembledLaidOut(Cluster(), report, g);
    forall k | 1 <= k <= |g.files| ensures file[k] == g.files[k - 1] {
      assert file[(k - 1) + 1] == g.files[k - 1];
    }
  }

  lemma ClusterSeparates(bases: set<string>)
    requires forall b :: b in bases ==> Plain(b)
    ensures Separating(Cluster(), BelowFn(), bases)
  {
    forall b, e: Entry | b in bases && (e.name == Cluster().report || e.name == Cluster().summary)
      ensures !BelowFn()(b)(e)
    {
      TopLevel(b, e);
    }
    forall b, b2, name, data | b in bases && b2 in bases && Cluster().dest(name, b).Some?
      ensures BelowFn()(b2)(Entry(Cluster().dest(name, b).value, data)) <==> b2 == b
    {
      assert Cluster().dest(name, b) == Destination(name, b);
      SanitizeExact(name, b);
    }
  }
}
