/**
  Slash-separated paths as the merge uses them: Go's lexical path cleaning and joining, and the
  check that keeps an archive entry below its node's directory.
 */
module Paths {
  import opened Common

  const SLASH: char := '/'

  /** The pieces between slashes; never empty. */
  function Split(s: string): (r: seq<string>)
    ensures |r| >= 1
    ensures forall c :: c in r ==> SLASH !in c
  {
    if s == "" then [""] else Prepend(s[0], Split(s[1..]))
  }

  /** One more character in front of split text. */
  function Prepend(ch: char, rest: seq<string>): seq<string>
    requires |rest| >= 1
  {
    if ch == SLASH then [""] + rest else [[ch] + rest[0]] + rest[1..]
  }

  function JoinSlash(cs: seq<string>): string {
    if cs == [] then ""
    else if |cs| == 1 then cs[0]
    else cs[0] + [SLASH] + JoinSlash(cs[1..])
  }

  /** A component that lexical cleaning keeps as it is. */
  predicate Plain(c: string) {
    c != "" && c != "." && c != ".." && SLASH !in c
  }

  /** Cleaning component by component; `acc` is what has been kept so far. */
  function Resolve(rooted: bool, acc: seq<string>, cs: seq<string>): seq<string>
    decreases |cs|
  {
    if cs == [] then acc
    else Resolve(rooted, Push(rooted, acc, cs[0]), cs[1..])
  }

  function Push(rooted: bool, acc: seq<string>, c: string): seq<string> {
    if c == "" || c == "." then acc
    else if c == ".." then
      if acc != [] && acc[|acc| - 1] != ".." then acc[..|acc| - 1]
      else if rooted then acc
      else acc + [".."]
    else acc + [c]
  }

  predicate Rooted(s: string) { s != "" && s[0] == SLASH }

  /** filepath.Clean */
  function Clean(s: string): string {
    var cs := Resolve(Rooted(s), [], Split(s));
    if Rooted(s) then [SLASH] + JoinSlash(cs)
    else if cs == [] then "."
    else JoinSlash(cs)
  }

  /** filepath.Join of two elements */
  function Join(a: string, b: string): string {
    if a == "" then (if b == "" then "" else Clean(b))
    else Clean(a + [SLASH] + b)
  }

  function StripTrailing(s: string): string {
    if s != "" && s[|s| - 1] == SLASH then StripTrailing(s[..|s| - 1]) else s
  }

  /** filepath.Base */
  function Base(s: string): string {
    if s == "" then "."
    else
      var t := StripTrailing(s);
      if t == "" then [SLASH] else LastPiece(t)
  }

  function LastPiece(s: string): string {
    var cs := Split(s);
    cs[|cs| - 1]
  }

  predicate HasPrefix(s: string, p: string) {
    |p| <= |s| && s[..|p|] == p
  }

  /** The destination of an archive entry, or an error for one that would leave `destination`. */
  function SanitizeExtractPath(filePath: string, destination: string): Result<string, string> {
    var destpath := Join(destination, filePath);
    if !HasPrefix(destpath, Clean(destination) + [SLASH]) then Err(filePath + ": illegal file path")
    else Ok(destpath)
  }

  // ---------------------------------------------------------------- splitting and joining

  lemma PrependConcat(ch: char, head: seq<string>, tail: seq<string>)
    requires |head| >= 1
    ensures Prepend(ch, head + tail) == Prepend(ch, head) + tail
  {
    assert (head + tail)[1..] == head[1..] + tail;
  }

  lemma {:induction false} SplitConcat(a: string, b: string)
    ensures Split(a + [SLASH] + b) == Split(a) + Split(b)
  {
    if a == "" {
      assert (a + [SLASH] + b)[1..] == b;
    } else {
      var s := a + [SLASH] + b;
      SplitConcat(a[1..], b);
      assert s[0] == a[0] && s[1..] == a[1..] + [SLASH] + b;
      PrependConcat(a[0], Split(a[1..]), Split(b));
    }
  }

  lemma {:induction false} SplitPlain(c: string)
    requires SLASH !in c
    ensures Split(c) == [c]
  {
    if c != "" {
      assert c == [c[0]] + c[1..] && c[0] in c;
      SplitPlain(c[1..]);
    }
  }

  lemma {:induction false} SplitJoin(cs: seq<string>)
    requires cs != [] && forall c :: c in cs ==> SLASH !in c
    ensures Split(JoinSlash(cs)) == cs
  {
    SplitPlain(cs[0]);
    if |cs| > 1 {
      SplitJoin(cs[1..]);
      SplitConcat(cs[0], JoinSlash(cs[1..]));
    }
  }

  lemma {:induction false} JoinSlashConcat(a: seq<string>, b: seq<string>)
    requires a != [] && b != []
    ensures JoinSlash(a + b) == JoinSlash(a) + [SLASH] + JoinSlash(b)
  {
    if |a| == 1 {
      assert (a + b)[1..] == b;
    } else {
      JoinSlashConcat(a[1..], b);
      assert (a + b)[1..] == a[1..] + b;
    }
  }

  // ---------------------------------------------------------------- cleaning

  /** Climbing components, then plain ones: the shape of every cleaned path. */
  ghost predicate Cleaned(rooted: bool, cs: seq<string>) {
    forall k :: 0 <= k < |cs| ==>
      Plain(cs[k]) || (cs[k] == ".." && !rooted && forall j :: 0 <= j < k ==> cs[j] == "..")
  }

  lemma {:induction false} ResolveCleans(rooted: bool, acc: seq<string>, cs: seq<string>)
    requires Cleaned(rooted, acc) && forall c :: c in cs ==> SLASH !in c
    ensures Cleaned(rooted, Resolve(rooted, acc, cs))
    decreases |cs|
  {
    if cs != [] {
      assert cs[0] in cs;
      ResolveCleans(rooted, Push(rooted, acc, cs[0]), cs[1..]);
    }
  }

  lemma {:induction false} ResolveConcat(rooted: bool, acc: seq<string>, a: seq<string>, b: seq<string>)
    ensures Resolve(rooted, acc, a + b) == Resolve(rooted, Resolve(rooted, acc, a), b)
    decreases |a|
  {
    if a == [] {
      assert a + b == b;
    } else {
      var all, next := a + b, Push(rooted, acc, a[0]);
      ResolveConcat(rooted, next, a[1..], b);
      assert all[0] == a[0] && all[1..] == a[1..] + b;
      ResolveFirst(rooted, acc, all);
      ResolveFirst(rooted, acc, a);
    }
  }

  lemma ResolveFirst(rooted: bool, acc: seq<string>, cs: seq<string>)
    requires cs != []
    ensures Resolve(rooted, acc, cs) == Resolve(rooted, Push(rooted, acc, cs[0]), cs[1..])
  {
  }

  lemma ResolveOne(rooted: bool, acc: seq<string>, c: string)
    ensures Resolve(rooted, acc, [c]) == Push(rooted, acc, c)
  {
    assert [c][1..] == [];
    assert Resolve(rooted, Push(rooted, acc, c), []) == Push(rooted, acc, c);
  }

  /** A path seen from inside `dest`: one leading climb cancels `dest`, otherwise `dest` goes in front. */
  function Under(dest: string, r: seq<string>): seq<string> {
    if r != [] && r[0] == ".." then r[1..] else [dest] + r
  }

  lemma PushUnder(dest: string, acc: seq<string>, c: string)
    requires Plain(dest) && Cleaned(false, acc)
    ensures Push(false, Under(dest, acc), c) == Under(dest, Push(false, acc, c))
  {
    if c == ".." && acc != [] {
      UnderPop(dest, acc);
    }
  }

  lemma UnderPop(dest: string, acc: seq<string>)
    requires Plain(dest) && Cleaned(false, acc) && acc != []
    ensures Push(false, Under(dest, acc), "..") == Under(dest, Push(false, acc, ".."))
  {
    if acc[0] == ".." {
      assert Under(dest, acc) == acc[1..];
    } else {
      assert forall k :: 0 <= k < |acc| ==> acc[k] != "..";
      assert Under(dest, acc) == [dest] + acc;
      assert ([dest] + acc)[..|acc|] == [dest] + acc[..|acc| - 1];
    }
  }

  lemma {:induction false} ResolveUnder(dest: string, acc: seq<string>, cs: seq<string>)
    requires Plain(dest) && Cleaned(false, acc) && forall c :: c in cs ==> SLASH !in c
    ensures Resolve(false, Under(dest, acc), cs) == Under(dest, Resolve(false, acc, cs))
    decreases |cs|
  {
    if cs != [] {
      assert cs[0] in cs;
      PushUnder(dest, acc, cs[0]);
      ResolveCleans(false, acc, [cs[0]]);
      ResolveOne(false, acc, cs[0]);
      ResolveUnder(dest, Push(false, acc, cs[0]), cs[1..]);
    }
  }

  /** An entry name cleaned on its own, as a relative path. */
  function Relative(filePath: string): seq<string> {
    Resolve(false, [], Split(filePath))
  }

  /** The components of the joined path. */
  function Joined(filePath: string, dest: string): seq<string> {
    Under(dest, Relative(filePath))
  }

  lemma JoinForm(filePath: string, dest: string)
    requires Plain(dest)
    ensures Cleaned(false, Relative(filePath)) && Cleaned(false, Joined(filePath, dest))
    ensures Join(dest, filePath) == if Joined(filePath, dest) == [] then "." else JoinSlash(Joined(filePath, dest))
    ensures Clean(dest) == dest
  {
    assert dest[0] in dest;
    var s := dest + [SLASH] + filePath;
    assert s[0] == dest[0];
    SplitConcat(dest, filePath);
    SplitPlain(dest);
    assert Split(s) == [dest] + Split(filePath);
    assert Under(dest, []) == [dest] && [] + [dest] == [dest];
    ResolveOne(false, [], dest);
    ResolveConcat(false, [], [dest], Split(filePath));
    ResolveUnder(dest, [], Split(filePath));
    ResolveCleans(false, [], Split(filePath));
    ResolveCleans(false, [dest], Split(filePath));
  }

  lemma SameFirst(x: string, y: string, rest: string)
    requires SLASH !in x && SLASH !in y
    requires HasPrefix(x + [SLASH] + rest, y + [SLASH])
    ensures x == y
  {
    var s, p := x + [SLASH] + rest, y + [SLASH];
    assert forall k :: 0 <= k < |p| ==> s[k] == s[..|p|][k] == p[k];
    assert forall k :: 0 <= k < |x| ==> s[k] == x[k] && x[k] in x;
    assert forall k :: 0 <= k < |y| ==> s[k] == y[k] && y[k] in y;
    assert s[|x|] == SLASH && s[|y|] == p[|y|] == SLASH;
  }

  lemma PrefixMeansFirst(u: seq<string>, dest: string)
    requires u != [] && SLASH !in dest && forall c :: c in u ==> SLASH !in c
    ensures HasPrefix(JoinSlash(u), dest + [SLASH]) <==> |u| >= 2 && u[0] == dest
  {
    if |u| >= 2 {
      if HasPrefix(JoinSlash(u), dest + [SLASH]) {
        SameFirst(u[0], dest, JoinSlash(u[1..]));
      }
    } else if HasPrefix(u[0], dest + [SLASH]) {
      assert u[0][|dest|] == (dest + [SLASH])[|dest|] == SLASH;
      assert u[0][|dest|] in u[0];
    }
  }

  /**
    The names that are accepted: a name that neither climbs nor vanishes when cleaned on its own, or
    one that climbs exactly once and comes straight back into the destination.
   */
  predicate Accepted(filePath: string, dest: string) {
    var r := Relative(filePath);
    (r != [] && r[0] != "..") || (|r| >= 3 && r[0] == ".." && r[1] == dest)
  }

  /** Acceptance is exactly `Accepted`, and every result is the destination followed by plain components. */
  lemma SanitizeExact(filePath: string, dest: string)
    requires Plain(dest)
    ensures SanitizeExtractPath(filePath, dest).Ok? <==> Accepted(filePath, dest)
    ensures var r := SanitizeExtractPath(filePath, dest);
            r.Ok? ==>
              var q := Joined(filePath, dest)[1..];
              && Joined(filePath, dest) == [dest] + q
              && q != [] && (forall k :: 0 <= k < |q| ==> Plain(q[k]))
              && r.value == dest + [SLASH] + JoinSlash(q)
              && Split(r.value) == [dest] + q
  {
    JoinForm(filePath, dest);
    var u := Joined(filePath, dest);
    if u == [] {
      assert "."[..|"."|] == ".";
    } else {
      PrefixMeansFirst(u, dest);
      SplitJoin(u);
    }
  }

  /** Entries extracted to different destinations never share a name, nor with a file at the top level. */
  lemma SanitizedNamesApart(f: string, dest: string, g: string, other: string, top: string)
    requires Plain(dest) && Plain(other) && dest != other && SLASH !in top
    requires SanitizeExtractPath(f, dest).Ok?
    ensures SanitizeExtractPath(f, dest).value != top
    ensures SanitizeExtractPath(f, dest) != SanitizeExtractPath(g, other)
  {
    SanitizeExact(f, dest);
    SanitizeExact(g, other);
    SplitPlain(top);
  }

  // ---------------------------------------------------------------- what a path means

  /** One component followed from a directory, given by the names that lead to it; the root is its own parent. */
  function Follow(dir: seq<string>, c: string): seq<string> {
    if c == "" || c == "." then dir
    else if c == ".." then (if dir == [] then [] else dir[..|dir| - 1])
    else dir + [c]
  }

  function Walk(dir: seq<string>, cs: seq<string>): seq<string> {
    if cs == [] then dir else Follow(Walk(dir, cs[..|cs| - 1]), cs[|cs| - 1])
  }

  /** The directory or file that a path leads to, from the current directory `dir`. */
  function Target(s: string, dir: seq<string>): seq<string> {
    Walk(if Rooted(s) then [] else dir, Split(s))
  }

  lemma WalkOne(dir: seq<string>, cs: seq<string>, c: string)
    ensures Walk(dir, cs + [c]) == Follow(Walk(dir, cs), c)
  {
    assert (cs + [c])[..|cs|] == cs;
  }

  lemma {:induction false} WalkConcat(dir: seq<string>, a: seq<string>, b: seq<string>)
    ensures Walk(dir, a + b) == Walk(Walk(dir, a), b)
    decreases |b|
  {
    if b == [] {
      assert a + b == a;
    } else {
      var init, last := b[..|b| - 1], b[|b| - 1];
      WalkConcat(dir, a, init);
      assert a + b == (a + init) + [last];
      WalkOne(dir, a + init, last);
    }
  }

  lemma PushWalks(rooted: bool, dir: seq<string>, acc: seq<string>, c: string)
    requires Cleaned(rooted, acc) && (rooted ==> dir == [])
    ensures Walk(dir, Push(rooted, acc, c)) == Follow(Walk(dir, acc), c)
  {
    if c == ".." && acc != [] && acc[|acc| - 1] != ".." {
      var init, last := acc[..|acc| - 1], acc[|acc| - 1];
      assert Plain(last);
      assert Walk(dir, acc) == Walk(dir, init) + [last];
    } else if c == ".." && rooted {
      assert acc == [];
    } else if c != "" && c != "." {
      WalkOne(dir, acc, c);
    }
  }

  lemma {:induction false} ResolveWalks(rooted: bool, dir: seq<string>, acc: seq<string>, cs: seq<string>)
    requires Cleaned(rooted, acc) && (rooted ==> dir == []) && forall c :: c in cs ==> SLASH !in c
    ensures Walk(dir, Resolve(rooted, acc, cs)) == Walk(Walk(dir, acc), cs)
    decreases |cs|
  {
    if cs != [] {
      var c, rest := cs[0], cs[1..];
      assert c in cs && cs == [c] + rest;
      PushWalks(rooted, dir, acc, c);
      ResolveCleans(rooted, acc, [c]);
      ResolveOne(rooted, acc, c);
      ResolveWalks(rooted, dir, Push(rooted, acc, c), rest);
      WalkConcat(Walk(dir, acc), [c], rest);
      WalkOne(Walk(dir, acc), [], c);
      assert [] + [c] == [c];
    }
  }

  /** The components of a cleaned path lead where the path leads. */
  lemma SplitClean(s: string)
    ensures var cs := Resolve(Rooted(s), [], Split(s));
            && Rooted(Clean(s)) == Rooted(s)
            && Split(Clean(s)) == (if Rooted(s) then [""] else []) + (if cs == [] then (if Rooted(s) then [""] else ["."]) else cs)
  {
    var cs := Resolve(Rooted(s), [], Split(s));
    ResolveCleans(Rooted(s), [], Split(s));
    if cs != [] {
      SplitJoin(cs);
      RootedSplit(JoinSlash(cs));
      assert cs[0] != "" && (Plain(cs[0]) || cs[0] == "..");
      StartsWith(cs);
    } else if Rooted(s) {
      RootedSplit("");
      assert [SLASH] + "" == [SLASH];
    } else {
      SplitPlain(".");
    }
  }

  lemma StartsWith(cs: seq<string>)
    requires cs != [] && cs[0] != "" && SLASH !in cs[0]
    ensures JoinSlash(cs) != "" && JoinSlash(cs)[0] != SLASH
  {
    assert cs[0][0] in cs[0];
  }

  lemma StayPut(dir: seq<string>, c: string)
    requires c == "" || c == "."
    ensures Walk(dir, [c]) == dir
  {
    WalkOne(dir, [], c);
    assert [] + [c] == [c];
  }

  /** Cleaning a path does not change where it leads, from any directory. */
  lemma CleanKeepsTarget(s: string, dir: seq<string>)
    ensures Target(Clean(s), dir) == Target(s, dir)
  {
    var rooted := Rooted(s);
    var from, cs := if rooted then [] else dir, Resolve(rooted, [], Split(s));
    ResolveWalks(rooted, from, [], Split(s));
    assert Target(s, dir) == Walk(from, cs);
    SplitClean(s);
    CleanWalks(rooted, from, cs);
  }

  lemma CleanWalks(rooted: bool, from: seq<string>, cs: seq<string>)
    ensures var tail := if cs == [] then (if rooted then [""] else ["."]) else cs;
            Walk(from, (if rooted then [""] else []) + tail) == Walk(from, cs)
  {
    var tail := if cs == [] then (if rooted then [""] else ["."]) else cs;
    if cs == [] {
      StayPut(from, tail[0]);
      assert tail == [tail[0]];
    }
    if rooted {
      WalkConcat(from, [""], tail);
      StayPut(from, "");
    } else {
      assert [] + tail == tail;
    }
  }

  lemma {:induction false} CleanedResolve(rooted: bool, acc: seq<string>, cs: seq<string>)
    requires Cleaned(rooted, acc + cs)
    ensures Resolve(rooted, acc, cs) == acc + cs
    decreases |cs|
  {
    if cs == [] {
      assert acc + cs == acc;
    } else {
      var all := acc + cs;
      assert all[|acc|] == cs[0] && forall j :: 0 <= j < |acc| ==> all[j] == acc[j];
      assert Push(rooted, acc, cs[0]) == acc + [cs[0]];
      assert (acc + [cs[0]]) + cs[1..] == all;
      CleanedResolve(rooted, acc + [cs[0]], cs[1..]);
    }
  }

  /** A cleaned path is clean. */
  lemma CleanTwice(s: string)
    ensures Clean(Clean(s)) == Clean(s)
  {
    var rooted := Rooted(s);
    var cs := Resolve(rooted, [], Split(s));
    ResolveCleans(rooted, [], Split(s));
    SplitClean(s);
    assert [] + cs == cs;
    CleanedResolve(rooted, [], cs);
    if rooted {
      var tail := if cs == [] then [""] else cs;
      ResolveConcat(true, [], [""], tail);
      ResolveOne(true, [], "");
    }
    if cs == [] {
      ResolveOne(rooted, [], if rooted then "" else ".");
    }
  }

  /** A join is clean, is empty only for two empty paths, and with an empty first path leads where the second leads. */
  lemma JoinClean(a: string, b: string, dir: seq<string>)
    ensures Join(a, b) == "" <==> a == "" && b == ""
    ensures Join(a, b) != "" ==> Clean(Join(a, b)) == Join(a, b)
    ensures a == "" && b != "" ==> Target(Join(a, b), dir) == Target(b, dir)
  {
    if a != "" || b != "" {
      var s := if a == "" then b else a + [SLASH] + b;
      CleanTwice(s);
      CleanKeepsTarget(s, dir);
      NotEmpty(s);
    }
  }

  lemma NotEmpty(s: string)
    ensures Clean(s) != ""
  {
    var cs := Resolve(Rooted(s), [], Split(s));
    ResolveCleans(Rooted(s), [], Split(s));
    if cs != [] {
      assert cs[0] != "";
    }
  }

  /** A joined path leads where the second path leads from the first one. */
  lemma JoinLeads(a: string, b: string, dir: seq<string>)
    requires a != ""
    ensures Target(Join(a, b), dir) == Walk(Target(a, dir), Split(b))
  {
    var s := a + [SLASH] + b;
    CleanKeepsTarget(s, dir);
    assert s[0] == a[0];
    SplitConcat(a, b);
    WalkConcat(if Rooted(s) then [] else dir, Split(a), Split(b));
  }

  /** An accepted entry lies where its name leads from the destination directory, and below that directory. */
  lemma AcceptedTarget(filePath: string, dest: string, dir: seq<string>)
    requires Plain(dest) && SanitizeExtractPath(filePath, dest).Ok?
    ensures var t := Target(SanitizeExtractPath(filePath, dest).value, dir);
            && t == Walk(dir + [dest], Split(filePath))
            && |t| > |dir| + 1 && t[..|dir| + 1] == dir + [dest]
  {
    JoinLeads(dest, filePath, dir);
    PlainStart(dest, dir);
    SanitizeExact(filePath, dest);
    BelowTarget(SanitizeExtractPath(filePath, dest).value, dest, Joined(filePath, dest)[1..], dir);
  }

  lemma PlainStart(dest: string, dir: seq<string>)
    requires Plain(dest)
    ensures Target(dest, dir) == dir + [dest]
  {
    assert dest[0] in dest;
    SplitPlain(dest);
    PlainTarget(dir, [dest]);
  }

  lemma BelowTarget(p: string, dest: string, q: seq<string>, dir: seq<string>)
    requires Plain(dest) && p == dest + [SLASH] + JoinSlash(q) && Split(p) == [dest] + q
    requires q != [] && forall k :: 0 <= k < |q| ==> Plain(q[k])
    ensures Target(p, dir) == dir + [dest] + q
  {
    assert p[0] == dest[0] && dest[0] in dest;
    PlainTarget(dir, [dest] + q);
  }

  lemma {:induction false} PlainTarget(dir: seq<string>, cs: seq<string>)
    requires forall k :: 0 <= k < |cs| ==> Plain(cs[k])
    ensures Walk(dir, cs) == dir + cs
  {
    if cs != [] {
      var init, last := cs[..|cs| - 1], cs[|cs| - 1];
      PlainTarget(dir, init);
      assert dir + cs == dir + init + [last];
    }
  }

  lemma {:induction false} PlainResolve(rooted: bool, acc: seq<string>, cs: seq<string>)
    requires forall k :: 0 <= k < |cs| ==> Plain(cs[k])
    ensures Resolve(rooted, acc, cs) == acc + cs
    decreases |cs|
  {
    if cs != [] {
      PlainResolve(rooted, acc + [cs[0]], cs[1..]);
      assert acc + [cs[0]] + cs[1..] == acc + cs;
    } else {
      assert acc + cs == acc;
    }
  }

  lemma OrdinaryRelative(cs: seq<string>)
    requires cs != [] && forall k :: 0 <= k < |cs| ==> Plain(cs[k])
    ensures Relative(JoinSlash(cs)) == cs
  {
    SplitJoin(cs);
    PlainResolve(false, [], cs);
    assert [] + cs == cs;
  }

  /** An ordinary name, of plain components only, goes below the destination as it is. */
  lemma OrdinaryName(cs: seq<string>, dest: string)
    requires Plain(dest) && cs != [] && forall k :: 0 <= k < |cs| ==> Plain(cs[k])
    ensures SanitizeExtractPath(JoinSlash(cs), dest) == Ok(dest + [SLASH] + JoinSlash(cs))
  {
    var name := JoinSlash(cs);
    OrdinaryRelative(cs);
    assert cs[0] != "..";
    assert Joined(name, dest) == [dest] + cs;
    assert Accepted(name, dest);
    SanitizeExact(name, dest);
    assert ([dest] + cs)[1..] == cs;
  }

  lemma AbsoluteParts(cs: seq<string>, f: string)
    requires cs != [] && Plain(f) && forall k :: 0 <= k < |cs| ==> Plain(cs[k])
    ensures Resolve(true, [], Split([SLASH] + JoinSlash(cs) + [SLASH] + f)) == cs + [f]
  {
    var all := cs + [f];
    SplitConcat([SLASH] + JoinSlash(cs), f);
    RootedSplit(JoinSlash(cs));
    SplitJoin(cs);
    SplitPlain(f);
    assert [""] + cs + [f] == [""] + all;
    ResolveConcat(true, [], [""], all);
    ResolveOne(true, [], "");
    PlainResolve(true, [], all);
    assert [] + all == all;
  }

  /** A plain file name in an absolute directory of plain components is simply appended. */
  lemma JoinAbsolute(cs: seq<string>, f: string)
    requires cs != [] && Plain(f) && forall k :: 0 <= k < |cs| ==> Plain(cs[k])
    ensures Join([SLASH] + JoinSlash(cs), f) == [SLASH] + JoinSlash(cs) + [SLASH] + f
  {
    AbsoluteParts(cs, f);
    JoinSlashConcat(cs, [f]);
    Reassociate(JoinSlash(cs), f);
  }

  lemma Reassociate(s: string, f: string)
    ensures [SLASH] + (s + [SLASH] + f) == [SLASH] + s + [SLASH] + f
  {
  }

  // ---------------------------------------------------------------- base names

  /** A path that ends in a plain component has that component as its base. */
  lemma BaseOfLast(s: string, us: seq<string>, f: string)
    requires Plain(f) && s != "" && s[|s| - 1] == f[|f| - 1]
    requires Split(s) == us && us[|us| - 1] == f
    ensures Base(s) == f
  {
    LastChar(f);
    NoTrailing(s);
  }

  lemma LastChar(f: string)
    requires Plain(f)
    ensures f[|f| - 1] != SLASH
  {
    assert f[|f| - 1] in f;
  }

  lemma NoTrailing(s: string)
    requires s != "" && s[|s| - 1] != SLASH
    ensures Base(s) == LastPiece(s)
  {
    assert StripTrailing(s) == s;
  }

  lemma JoinedEnd(cs: seq<string>, f: string)
    requires f != ""
    ensures var s := JoinSlash(cs + [f]); s != "" && s[|s| - 1] == f[|f| - 1]
  {
    if cs != [] {
      JoinSlashConcat(cs, [f]);
    } else {
      assert cs + [f] == [f];
    }
  }

  lemma BaseOfRelative(cs: seq<string>, f: string)
    requires Plain(f) && forall c :: c in cs ==> SLASH !in c
    ensures Base(JoinSlash(cs + [f])) == f
  {
    SplitJoin(cs + [f]);
    JoinedEnd(cs, f);
    BaseOfLast(JoinSlash(cs + [f]), cs + [f], f);
  }

  lemma RootedSplit(s: string)
    ensures Split([SLASH] + s) == [""] + Split(s)
  {
    assert ([SLASH] + s)[1..] == s;
  }

  lemma BaseOfRooted(cs: seq<string>, f: string)
    requires Plain(f) && forall c :: c in cs ==> SLASH !in c
    ensures Base([SLASH] + JoinSlash(cs + [f])) == f
  {
    SplitJoin(cs + [f]);
    JoinedEnd(cs, f);
    RootedSplit(JoinSlash(cs + [f]));
    BaseOfLast([SLASH] + JoinSlash(cs + [f]), [""] + (cs + [f]), f);
  }

  /** Trailing slashes do not count, and the empty path and the root have bases of their own. */
  lemma BaseTrailing(s: string)
    ensures Base("") == "." && Base([SLASH]) == [SLASH]
    ensures s != "" ==> Base(s + [SLASH]) == Base(s)
  {
    assert [SLASH][..0] == "" && StripTrailing("") == "";
    assert StripTrailing([SLASH]) == "";
    var t := s + [SLASH];
    assert t[|t| - 1] == SLASH && t[..|t| - 1] == s;
    assert StripTrailing(t) == StripTrailing(s);
  }

  /** A plain file name survives being joined to any directory. */
  lemma BaseJoin(dir: string, f: string)
    requires Plain(f)
    ensures Base(Join(dir, f)) == f
  {
    assert f[0] in f;
    SplitPlain(f);
    var s := dir + [SLASH] + f;
    if dir == "" {
      ResolveOne(false, [], f);
      BaseOfRelative([], f);
      assert [] + [f] == [f];
    } else {
      assert s[0] == dir[0];
      SplitConcat(dir, f);
      var cs := Resolve(Rooted(s), [], Split(dir));
      ResolveConcat(Rooted(s), [], Split(dir), [f]);
      ResolveOne(Rooted(s), cs, f);
      ResolveCleans(Rooted(s), [], Split(dir));
      if Rooted(s) {
        BaseOfRooted(cs, f);
      } else {
        BaseOfRelative(cs, f);
      }
    }
  }
}
