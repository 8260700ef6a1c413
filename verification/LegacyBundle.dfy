/** The deprecated bundle's contents against a sequential fetch of the same requests. */
module LegacyBundle {
  import opened Common
  import opened Sums
  import opened Paths
  import opened FetcherPool
  import opened FetcherPoolProgress

  // ---------------------------------------------------------------- one fetcher

  function ZipName(r: EndpointRequest, gzip: bool): string {
    Join(r.ip + "_" + r.role, if gzip then r.fileName + ".gz" else r.fileName)
  }

  /** The zip entries a request leaves behind. */
  function Written(f: Fetch): seq<Entry> {
    match f.reply
    case Copied(gzip, data, _) => [Entry(ZipName(f.req, gzip), data)]
    case _ => []
  }

  function WrittenFn(): Fetch -> seq<Entry> { (f: Fetch) => Written(f) }

  /** The error a request reports; a refused optional request reports none. */
  function Reported(f: Fetch): Option<string> {
    match f.reply
    case Refused(err) => if f.req.optional then None else Some(err)
    case NotCreated(err) => Some(err)
    case Copied(_, _, copyErr) => copyErr
  }

  /** What requests leave behind when they are fetched one after the other. */
  function Archive<T>(fs: seq<Fetch>, out: Fetch -> seq<T>): seq<T> {
    if fs == [] then [] else out(fs[0]) + Archive(fs[1..], out)
  }

  /** A fetcher and the zip it writes. */
  class ZipFetcher {
    var zip: seq<Entry>

    constructor ()
      ensures zip == []
    {
      zip := [];
    }

    method GetDataToZip(f: Fetch) returns (err: Option<string>)
      modifies this
      ensures zip == old(zip) + Written(f)
      ensures err == Reported(f)
    {
      if f.reply.Refused? {
        if !f.req.optional {
          return Some(f.reply.err);
        }
        return None;
      }
      if f.reply.NotCreated? {
        return Some(f.reply.err);
      }
      var r := f.req;
      if f.reply.gzip {
        r := r.(fileName := r.fileName + ".gz");
      }
      var filename := Join(r.ip + "_" + r.role, r.fileName);
      zip := zip + [Entry(filename, f.reply.data)];
      return f.reply.copyErr;
    }

    /** The receive loop of an uncancelled fetcher on the requests it gets, with the updates it sends. */
    method WorkOffRequests(input: seq<Fetch>) returns (updates: seq<Option<string>>)
      modifies this
      ensures zip == old(zip) + Archive(input, WrittenFn())
      ensures |updates| == |input| && forall k :: 0 <= k < |input| ==> updates[k] == Reported(input[k])
    {
      updates := [];
      for k := 0 to |input|
        invariant zip == old(zip) + Archive(input[..k], WrittenFn())
        invariant |updates| == k && forall i :: 0 <= i < k ==> updates[i] == Reported(input[i])
      {
        var err := GetDataToZip(input[k]);
        ArchiveConcat(input[..k], [input[k]], WrittenFn());
        assert input[..k] + [input[k]] == input[..k + 1];
        assert Archive([input[k]], WrittenFn()) == Written(input[k]);
        updates := updates + [err];
      }
      assert input[..|input|] == input;
    }
  }

  /**
    What a request leaves: an answer that is copied leaves one entry with its bytes; a failed request leaves
    its error, unless it was refused and is optional.
   */
  lemma FetchAccounted(f: Fetch)
    ensures f.reply.Copied? ==> |Written(f)| == 1 && Written(f)[0].data == f.reply.data && Reported(f) == f.reply.copyErr
    ensures f.reply.NotCreated? ==> Written(f) == [] && Reported(f) == Some(f.reply.err)
    ensures f.reply.Refused? && !f.req.optional ==> Written(f) == [] && Reported(f) == Some(f.reply.err)
    ensures f.reply.Refused? && f.req.optional ==> Written(f) == [] && Reported(f) == None
    ensures |Written(f)| <= 1
    ensures Written(f) == [] && Reported(f).None? <==> f.req.optional && f.reply.Refused?
    ensures Written(f) != [] && Reported(f).Some? <==> f.reply.Copied? && f.reply.copyErr.Some?
  {
  }

  /** The copied bytes of the answers of requests, in order. */
  function CopiedBytes(fs: seq<Fetch>): seq<Bytes> {
    if fs == [] then []
    else (match fs[0].reply case Copied(_, data, _) => [data] case _ => []) + CopiedBytes(fs[1..])
  }

  function DataOf(es: seq<Entry>): seq<Bytes> {
    seq(|es|, k requires 0 <= k < |es| => es[k].data)
  }

  lemma {:induction false} ArchiveData(fs: seq<Fetch>)
    ensures DataOf(Archive(fs, WrittenFn())) == CopiedBytes(fs)
  {
    if fs != [] {
      var first, rest := Written(fs[0]), Archive(fs[1..], WrittenFn());
      ArchiveData(fs[1..]);
      assert WrittenFn()(fs[0]) == first;
      DataOfOne(fs[0]);
      DataConcat(first, rest);
    }
  }

  lemma DataOfOne(f: Fetch)
    ensures DataOf(Written(f)) == match f.reply case Copied(_, data, _) => [data] case _ => []
  {
  }

  lemma DataConcat(a: seq<Entry>, b: seq<Entry>)
    ensures DataOf(a + b) == DataOf(a) + DataOf(b)
  {
  }

  /** The entry of an ordinary file name, with .gz appended for a compressed answer. */
  lemma EntryName(f: Fetch)
    requires f.reply.Copied? && SLASH !in f.req.ip && SLASH !in f.req.role
    requires Plain(if f.reply.gzip then f.req.fileName + ".gz" else f.req.fileName)
    ensures Written(f) == [Entry(f.req.ip + "_" + f.req.role + "/" + f.req.fileName + (if f.reply.gzip then ".gz" else ""),
                                 f.reply.data)]
  {
    var dir, file := NodeDirectory(f.req), if f.reply.gzip then f.req.fileName + ".gz" else f.req.fileName;
    assert dir[|f.req.ip|] == '_';
    OrdinaryName([file], dir);
    assert JoinSlash([file]) == file;
    assert ZipName(f.req, f.reply.gzip) == Join(dir, file);
    assert f.req.fileName + "" == f.req.fileName;
    Append(dir + "/", f.req.fileName, if f.reply.gzip then ".gz" else "");
  }

  lemma Append(a: string, b: string, c: string)
    ensures a + (b + c) == a + b + c
  {
  }

  /** The directory of a node in the bundle. */
  function NodeDirectory(r: EndpointRequest): string { r.ip + "_" + r.role }

  /** The entry is in its node's directory exactly when the file name does not leave that directory for good. */
  lemma EntryBelowNode(f: Fetch)
    requires f.reply.Copied? && SLASH !in f.req.ip && SLASH !in f.req.role
    ensures |Written(f)| == 1
    ensures var dir, file := NodeDirectory(f.req), if f.reply.gzip then f.req.fileName + ".gz" else f.req.fileName;
            var cs := Split(Written(f)[0].name);
            (|cs| >= 2 && cs[0] == dir) <==> Accepted(file, dir)
  {
    var dir, file := NodeDirectory(f.req), if f.reply.gzip then f.req.fileName + ".gz" else f.req.fileName;
    assert dir[|f.req.ip|] == '_';
    JoinForm(file, dir);
    SanitizeExact(file, dir);
    var u := Joined(file, dir);
    if u == [] {
      SplitPlain(".");
    } else {
      SplitJoin(u);
    }
  }

  /** A file named ../x is written next to the directory of its node. */
  lemma EntryOutsideNode(f: Fetch)
    requires f.reply.Copied? && !f.reply.gzip && SLASH !in f.req.ip && SLASH !in f.req.role
    requires f.req.fileName == ".." + [SLASH] + "x"
    ensures |Written(f)| == 1 && Written(f)[0].name == "x"
  {
    var dir := NodeDirectory(f.req);
    assert dir[|f.req.ip|] == '_';
    JoinForm(f.req.fileName, dir);
    SplitConcat("..", "x");
    SplitPlain("..");
    SplitPlain("x");
    ResolveConcat(false, [], [".."], ["x"]);
    ResolveOne(false, [], "..");
    ResolveOne(false, [".."], "x");
    assert Relative(f.req.fileName) == ["..", "x"];
    assert Joined(f.req.fileName, dir) == ["x"];
  }

  lemma {:induction false} ArchiveConcat<T>(a: seq<Fetch>, b: seq<Fetch>, out: Fetch -> seq<T>)
    ensures Archive(a + b, out) == Archive(a, out) + Archive(b, out)
  {
    if a == [] {
      assert a + b == b;
    } else {
      ArchiveConcat(a[1..], b, out);
      assert (a + b)[0] == a[0] && (a + b)[1..] == a[1..] + b;
      assert out(a[0]) + Archive(a[1..], out) + Archive(b, out) == out(a[0]) + (Archive(a[1..], out) + Archive(b, out));
    }
  }

  // ---------------------------------------------------------------- order does not matter

  lemma ArchiveRemove<T>(fs: seq<Fetch>, k: nat, out: Fetch -> seq<T>)
    requires k < |fs|
    ensures multiset(Archive(fs, out)) == multiset(Archive(fs[..k] + fs[k + 1..], out)) + multiset(out(fs[k]))
  {
    assert fs == fs[..k] + ([fs[k]] + fs[k + 1..]);
    ArchiveConcat(fs[..k], [fs[k]] + fs[k + 1..], out);
    ArchiveConcat([fs[k]], fs[k + 1..], out);
    ArchiveConcat(fs[..k], fs[k + 1..], out);
    assert Archive([fs[k]], out) == out(fs[k]) + [];
  }

  lemma {:induction false} ArchivePermuted<T>(a: seq<Fetch>, b: seq<Fetch>, out: Fetch -> seq<T>)
    requires multiset(a) == multiset(b)
    ensures multiset(Archive(a, out)) == multiset(Archive(b, out))
    decreases |a|
  {
    assert |a| == |multiset(a)| == |b|;
    if a != [] {
      assert a[0] in multiset(b);
      var k :| 0 <= k < |b| && b[k] == a[0];
      PermutedRest(a, b, k);
      ArchivePermuted(a[1..], b[..k] + b[k + 1..], out);
      ArchiveRemove(b, k, out);
      ArchiveRemove(a, 0, out);
      assert a[..0] + a[1..] == a[1..];
    }
  }

  /**
    For any number of fetchers, any shuffle and any schedule of an uncancelled job, the bundle holds, as
    a multiset, the entries of a sequential fetch of the original request list, and the updates received
    are one per request.
   */
  lemma ParallelEqualsSequential<T>(j: Job, es: seq<Event>, original: seq<Fetch>, out: Fetch -> seq<T>)
    requires Run(j, Init(j), es) && Complete(j, After(j, Init(j), es)) && !After(j, Init(j), es).cancelled
    requires j.fetchers >= 1 || j.requests == []
    requires multiset(original) == multiset(j.requests)
    ensures multiset(Archive(After(j, Init(j), es).bundle, out)) == multiset(Archive(original, out))
    ensures multiset(Archive(After(j, Init(j), es).updates, out)) == multiset(Archive(original, out))
    ensures multiset(After(j, Init(j), es).updates) == multiset(original)
  {
    var s := After(j, Init(j), es);
    forall x ensures Sum(s.bundle, Is(x)) == Sum(j.requests, Is(x)) && Sum(s.updates, Is(x)) == Sum(j.requests, Is(x)) {
      CompleteCounts(j, es, Is(x));
    }
    EqualSumsPermuted(s.bundle, j.requests);
    EqualSumsPermuted(s.updates, j.requests);
    ArchivePermuted(s.bundle, original, out);
    ArchivePermuted(s.updates, original, out);
  }

  /**
    The bytes in the bundle of a complete uncancelled job are those that were copied from the answers to the
    requests, and the errors of its updates are those of the requests.
   */
  lemma BundleBytes(j: Job, es: seq<Event>, original: seq<Fetch>)
    requires Run(j, Init(j), es) && Complete(j, After(j, Init(j), es)) && !After(j, Init(j), es).cancelled
    requires j.fetchers >= 1 || j.requests == []
    requires multiset(original) == multiset(j.requests)
    ensures multiset(DataOf(Archive(After(j, Init(j), es).bundle, WrittenFn()))) == multiset(CopiedBytes(original))
    ensures multiset(Archive(After(j, Init(j), es).updates, ErrorFn())) == multiset(Archive(original, ErrorFn()))
  {
    ParallelEqualsSequential(j, es, original, BytesFn());
    ParallelEqualsSequential(j, es, original, ErrorFn());
    ArchiveData(After(j, Init(j), es).bundle);
    BytesAreCopied(After(j, Init(j), es).bundle);
    BytesAreCopied(original);
  }

  function BytesFn(): Fetch -> seq<Bytes> {
    (f: Fetch) => match f.reply case Copied(_, data, _) => [data] case _ => []
  }

  /** The error of a request, with its address, if there is one. */
  function ErrorFn(): Fetch -> seq<(string, string)> {
    (f: Fetch) => if Reported(f).Some? then [(f.req.url, Reported(f).value)] else []
  }

  lemma {:induction false} BytesAreCopied(fs: seq<Fetch>)
    ensures Archive(fs, BytesFn()) == CopiedBytes(fs)
  {
    if fs != [] {
      BytesAreCopied(fs[1..]);
    }
  }

  lemma {:induction false} ArchiveWithin<T>(a: seq<Fetch>, b: seq<Fetch>, out: Fetch -> seq<T>)
    requires multiset(a) <= multiset(b)
    ensures multiset(Archive(a, out)) <= multiset(Archive(b, out))
    decreases |a|
  {
    if a != [] {
      assert a[0] in multiset(a);
      var k :| 0 <= k < |b| && b[k] == a[0];
      WithoutOne(a, 0);
      WithoutOne(b, k);
      assert a[..0] + a[1..] == a[1..];
      ArchiveWithin(a[1..], b[..k] + b[k + 1..], out);
      ArchiveRemove(b, k, out);
      ArchiveRemove(a, 0, out);
    }
  }

  /** Cancelled or not, nothing is in the bundle more often than in a sequential fetch of all requests. */
  lemma BundleWithin<T>(j: Job, es: seq<Event>, out: Fetch -> seq<T>)
    requires Run(j, Init(j), es)
    ensures multiset(After(j, Init(j), es).bundle) <= multiset(j.requests)
    ensures multiset(Archive(After(j, Init(j), es).bundle, out)) <= multiset(Archive(j.requests, out))
  {
    forall x ensures multiset(After(j, Init(j), es).bundle)[x] <= multiset(j.requests)[x] {
      BundleNoMore(j, es, Is(x));
      SumIs(After(j, Init(j), es).bundle, x);
      SumIs(j.requests, x);
    }
    ArchiveWithin(After(j, Init(j), es).bundle, j.requests, out);
  }

  // ---------------------------------------------------------------- one result per fetcher

  lemma StepGathers(j: Job, s: State, e: Event, w: nat)
    requires Enabled(j, s, e) && w < |s.pool|
    requires Sum(s.gathered, Is(w)) == if s.pool[w].phase.Gone? then 1 else 0
    ensures var t := Next(j, s, e);
            w < |t.pool| && Sum(t.gathered, Is(w)) == if t.pool[w].phase.Gone? then 1 else 0
  {
    if e.Gather? {
      SumAppend(s.gathered, e.w, Is(w));
    }
  }

  lemma {:induction false} RunGathers(j: Job, s: State, es: seq<Event>, w: nat)
    requires Run(j, s, es) && w < |s.pool|
    requires Sum(s.gathered, Is(w)) == if s.pool[w].phase.Gone? then 1 else 0
    ensures var t := After(j, s, es);
            w < |t.pool| && Sum(t.gathered, Is(w)) == if t.pool[w].phase.Gone? then 1 else 0
    decreases |es|
  {
    if es != [] {
      StepGathers(j, s, es[0], w);
      RunGathers(j, Next(j, s, es[0]), es[1..], w);
    }
  }

  /** Every complete job has received exactly one result from each fetcher. */
  lemma OneResultEach(j: Job, es: seq<Event>, w: nat)
    requires Run(j, Init(j), es) && Complete(j, After(j, Init(j), es)) && w < j.fetchers
    ensures multiset(After(j, Init(j), es).gathered)[w] == 1 && |After(j, Init(j), es).gathered| == j.fetchers
  {
    InitInv(j);
    RunKeepsInv(j, Init(j), es);
    AllGone(After(j, Init(j), es).pool);
    RunGathers(j, Init(j), es, w);
    SumIs(After(j, Init(j), es).gathered, w);
  }

  // ---------------------------------------------------------------- the shuffle

  method Swap(a: array<Fetch>, i: nat, j: nat)
    requires i < a.Length && j < a.Length
    modifies a
    ensures a[..] == old(a[..])[i := old(a[j])][j := old(a[i])]
  {
    a[i], a[j] := a[j], a[i];
  }

  lemma Exchange(a: seq<Fetch>, x: Fetch, m: seq<Fetch>, y: Fetch, b: seq<Fetch>)
    ensures multiset(a + [x] + m + [y] + b) == multiset(a + [y] + m + [x] + b)
  {
    assert multiset(a + [x] + m + [y] + b) == multiset(a) + multiset{x} + multiset(m) + multiset{y} + multiset(b);
    assert multiset(a + [y] + m + [x] + b) == multiset(a) + multiset{y} + multiset(m) + multiset{x} + multiset(b);
  }

  lemma SwapPermutes(s: seq<Fetch>, i: nat, j: nat)
    requires i <= j < |s|
    ensures multiset(s[i := s[j]][j := s[i]]) == multiset(s)
  {
    var t := s[i := s[j]][j := s[i]];
    if i == j {
      assert t == s;
    } else {
      var a, m, b := s[..i], s[i + 1..j], s[j + 1..];
      assert s == a + [s[i]] + m + [s[j]] + b;
      assert t == a + [s[j]] + m + [s[i]] + b;
      Exchange(a, s[i], m, s[j], b);
    }
  }

  predicate Picks(picks: seq<nat>, n: nat) {
    |picks| == n && forall k :: 0 <= k < n ==> picks[k] <= k
  }

  function Swapped(s: seq<Fetch>, i: nat, j: nat): seq<Fetch>
    requires i < |s| && j < |s|
  {
    s[i := s[j]][j := s[i]]
  }

  /** The shuffle of the first n elements: the last of them is swapped with the picked one, then those before it. */
  function Shuffled(s: seq<Fetch>, picks: seq<nat>, n: nat): seq<Fetch>
    requires n <= |s| && Picks(picks, |s|)
    decreases n
  {
    if n <= 1 then s else Shuffled(Swapped(s, picks[n - 1], n - 1), picks, n - 1)
  }

  /** Whatever is picked, the requests are only reordered. */
  lemma {:induction false} ShuffledPermutes(s: seq<Fetch>, picks: seq<nat>, n: nat)
    requires n <= |s| && Picks(picks, |s|)
    ensures multiset(Shuffled(s, picks, n)) == multiset(s)
    decreases n
  {
    if n > 1 {
      SwapPermutes(s, picks[n - 1], n - 1);
      ShuffledPermutes(Swapped(s, picks[n - 1], n - 1), picks, n - 1);
    }
  }

  lemma {:induction false} LaterPicksIdle(s: seq<Fetch>, p: seq<nat>, q: seq<nat>, n: nat)
    requires n <= |s| && Picks(p, |s|) && Picks(q, |s|) && p[..n] == q[..n]
    ensures Shuffled(s, p, n) == Shuffled(s, q, n)
    decreases n
  {
    if n > 1 {
      assert p[n - 1] == p[..n][n - 1] == q[..n][n - 1] == q[n - 1];
      assert p[..n - 1] == p[..n][..n - 1] && q[..n - 1] == q[..n][..n - 1];
      LaterPicksIdle(Swapped(s, p[n - 1], n - 1), p, q, n - 1);
    }
  }

  lemma SamePrefix(s: seq<Fetch>, t: seq<Fetch>, n: nat)
    requires multiset(s) == multiset(t) && n <= |s| == |t| && s[n..] == t[n..]
    ensures multiset(s[..n]) == multiset(t[..n])
  {
    assert s == s[..n] + s[n..] && t == t[..n] + t[n..];
    assert multiset(s) == multiset(s[..n]) + multiset(s[n..]);
    assert multiset(t) == multiset(t[..n]) + multiset(t[n..]);
    assert multiset(s[..n]) == multiset(s) - multiset(s[n..]);
    assert multiset(t[..n]) == multiset(t) - multiset(t[n..]);
  }

  lemma SameWhole(s: seq<Fetch>, t: seq<Fetch>, n: nat)
    requires multiset(s) == multiset(t) && n <= 1 && n <= |s| == |t| && s[n..] == t[n..]
    ensures s == t
  {
    SamePrefix(s, t, n);
    if n == 1 {
      assert s[..1] == [s[0]] && t[..1] == [t[0]];
      assert s[0] in multiset(t[..1]);
    }
    assert s == s[..n] + s[n..] && t == t[..n] + t[n..];
  }

  /** The pick that brings the wanted element to place n - 1. */
  lemma PickOne(s: seq<Fetch>, t: seq<Fetch>, n: nat) returns (j: nat)
    requires multiset(s) == multiset(t) && 0 < n <= |s| == |t| && s[n..] == t[n..]
    ensures j < n && multiset(Swapped(s, j, n - 1)) == multiset(t)
    ensures Swapped(s, j, n - 1)[n - 1..] == t[n - 1..]
  {
    SamePrefix(s, t, n);
    assert t[n - 1] == t[..n][n - 1] && t[n - 1] in multiset(s[..n]);
    j :| 0 <= j < n && s[j] == t[n - 1];
    SwapPermutes(s, j, n - 1);
    SwappedTail(s, j, n);
    assert t[n - 1..] == [t[n - 1]] + t[n..];
  }

  lemma SwappedTail(s: seq<Fetch>, j: nat, n: nat)
    requires j < n <= |s|
    ensures Swapped(s, j, n - 1)[n - 1..] == [s[j]] + s[n..]
  {
  }

  lemma WithPick(s: seq<Fetch>, rest: seq<nat>, j: nat, n: nat)
    requires j < n && 1 < n <= |s| && Picks(rest, |s|)
    ensures Picks(rest[n - 1 := j], |s|)
    ensures Shuffled(s, rest[n - 1 := j], n) == Shuffled(Swapped(s, j, n - 1), rest, n - 1)
  {
    LaterPicksIdle(Swapped(s, j, n - 1), rest, rest[n - 1 := j], n - 1);
  }

  lemma NoPick(s: seq<Fetch>, t: seq<Fetch>, n: nat) returns (picks: seq<nat>)
    requires multiset(s) == multiset(t) && n <= 1 && n <= |s| == |t| && s[n..] == t[n..]
    ensures Picks(picks, |s|) && Shuffled(s, picks, n) == t
  {
    picks := seq(|s|, _ => 0);
    SameWhole(s, t, n);
  }

  lemma {:induction false} PicksFor(s: seq<Fetch>, t: seq<Fetch>, n: nat) returns (picks: seq<nat>)
    requires multiset(s) == multiset(t) && n <= |s| == |t| && s[n..] == t[n..]
    ensures Picks(picks, |s|) && Shuffled(s, picks, n) == t
    decreases n
  {
    if n <= 1 {
      picks := NoPick(s, t, n);
    } else {
      var j := PickOne(s, t, n);
      var u := Swapped(s, j, n - 1);
      var rest := PicksFor(u, t, n - 1);
      WithPick(s, rest, j, n);
      picks := rest[n - 1 := j];
    }
  }

  /** The orders that the shuffle can produce are exactly the permutations of the requests. */
  lemma ShuffleReaches(s: seq<Fetch>, t: seq<Fetch>)
    ensures (exists picks :: Picks(picks, |s|) && Shuffled(s, picks, |s|) == t) <==> multiset(s) == multiset(t)
  {
    if multiset(s) == multiset(t) {
      assert |s| == |multiset(s)| == |t|;
      var picks := PicksFor(s, t, |s|);
    }
    forall picks | Picks(picks, |s|) ensures multiset(Shuffled(s, picks, |s|)) == multiset(s) {
      ShuffledPermutes(s, picks, |s|);
    }
  }

  /** The in-place shuffle, for any choice of random numbers. */
  method ShuffleRequests(a: array<Fetch>, picks: seq<nat>)
    requires Picks(picks, a.Length)
    modifies a
    ensures a[..] == Shuffled(old(a[..]), picks, a.Length)
    ensures multiset(a[..]) == multiset(old(a[..]))
  {
    var i := a.Length;
    while i > 1
      invariant 0 <= i <= a.Length
      invariant Shuffled(a[..], picks, i) == Shuffled(old(a[..]), picks, a.Length)
    {
      i := i - 1;
      Swap(a, picks[i], i);
    }
    ShuffledPermutes(old(a[..]), picks, a.Length);
  }
}
