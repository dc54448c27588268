/** The capped search over a directory tree (enclave/tools/grep_search.py:20-200). The
    regular expression and the include pattern are arbitrary predicates. */
module GrepSearch {
  import opened Models
  import opened Text

  const MAX_RESULTS := 50
  const MAX_LINE_LENGTH := 500

  /** A file with its path, whether its suffix is a binary one, and its lines; a file that
      cannot be read has none. */
  datatype File = File(name: string, path: string, binary: bool, lines: seq<string>)

  /** A directory; entries are listed in sorted order. */
  datatype Dir = Dir(name: string, files: seq<File>, dirs: seq<Dir>)

  const SKIP_DIRS: set<string> := {
    ".git", ".svn", ".hg", "node_modules", "bower_components", "__pycache__", ".pytest_cache", ".mypy_cache",
    ".ruff_cache", ".venv", "venv", "env", ".tox", ".nox", "dist", "build", ".next", ".nuxt", "target", ".idea",
    ".vscode"}

  datatype Query = Query(hit: string -> bool, included: string -> bool)

  // ---- The uncapped search ----

  /** The directories visited by the walk, as lists of files: skipped directories are pruned
      with everything below them. */
  function Walk(d: Dir): seq<seq<File>>
    decreases d
  {
    [d.files] + WalkBelow(d.dirs)
  }

  function WalkBelow(dirs: seq<Dir>): seq<seq<File>>
    decreases dirs
  {
    if dirs == [] then []
    else (if dirs[0].name in SKIP_DIRS then [] else Walk(dirs[0])) + WalkBelow(dirs[1..])
  }

  predicate Searched(q: Query, f: File) {
    !f.binary && q.included(f.name)
  }

  /** The files that are searched, of a list of files. */
  function Eligible(q: Query, files: seq<File>): seq<File> {
    if files == [] then []
    else
      var f := files[|files| - 1];
      Eligible(q, files[..|files| - 1]) + if Searched(q, f) then [f] else []
  }

  function EligibleIn(q: Query, walk: seq<seq<File>>): seq<File> {
    if walk == [] then []
    else EligibleIn(q, walk[..|walk| - 1]) + Eligible(q, walk[|walk| - 1])
  }

  /** `line.rstrip()`. */
  function RStrip(s: string): string {
    if s != "" && IsSpace(s[|s| - 1]) then RStrip(s[..|s| - 1]) else s
  }

  function ShowMatch(path: string, number: nat, line: string): string {
    var display := RStrip(line);
    path + ":" + Decimal(number) + ": "
    + if |display| > MAX_LINE_LENGTH then display[..MAX_LINE_LENGTH] + "..." else display
  }

  /** All matches in the first lines of a file. */
  function LineMatches(q: Query, path: string, lines: seq<string>): seq<string> {
    if lines == [] then []
    else
      var k := |lines| - 1;
      LineMatches(q, path, lines[..k]) + if q.hit(lines[k]) then [ShowMatch(path, |lines|, lines[k])] else []
  }

  function FileMatches(q: Query, f: File): seq<string> {
    LineMatches(q, f.path, f.lines)
  }

  function AllMatches(q: Query, files: seq<File>): seq<string> {
    if files == [] then []
    else AllMatches(q, files[..|files| - 1]) + FileMatches(q, files[|files| - 1])
  }

  // ---- The capped search ----

  method SearchFile(q: Query, f: File) returns (matches: seq<string>)
    ensures matches == Take(FileMatches(q, f), MAX_RESULTS)
  {
    matches := [];
    for i := 0 to |f.lines|
      invariant matches == LineMatches(q, f.path, f.lines[..i]) && |matches| < MAX_RESULTS
    {
      assert f.lines[..i + 1][..i] == f.lines[..i];
      if q.hit(f.lines[i]) {
        matches := matches + [ShowMatch(f.path, i + 1, f.lines[i])];
        if |matches| >= MAX_RESULTS {
          LineMatchesGrow(q, f.path, f.lines, i + 1);
          return;
        }
      }
    }
    assert f.lines[..|f.lines|] == f.lines;
  }

  /** What a search over these files may report, having searched the first `count` of
      them: exactly the first fifty matches, and no file too many. */
  predicate Reports(q: Query, files: seq<File>, lines: seq<string>, count: nat) {
    && count <= |files|
    && lines == Take(AllMatches(q, files), MAX_RESULTS)
    && (count < |files| ==> |AllMatches(q, files[..count])| >= MAX_RESULTS)
    && (count > 0 ==> |AllMatches(q, files[..count - 1])| < MAX_RESULTS)
  }

  datatype Report = Report(lines: seq<string>, filesSearched: nat, capped: bool)

  method SearchTree(q: Query, root: Dir) returns (r: Report)
    ensures Reports(q, EligibleIn(q, Walk(root)), r.lines, r.filesSearched)
    ensures r.capped <==> |AllMatches(q, EligibleIn(q, Walk(root)))| >= MAX_RESULTS
  {
    var results: seq<string>, count := [], 0;
    var walk := Walk(root);
    ghost var seen: seq<File> := [];
    for i := 0 to |walk|
      invariant seen == EligibleIn(q, walk[..i]) && Partial(q, seen, results, count)
    {
      assert walk[..i + 1][..i] == walk[..i];
      results, count := SearchDirectory(q, walk[i], seen, results, count);
      seen := seen + Eligible(q, walk[i]);
    }
    assert walk[..|walk|] == walk;
    PartialReports(q, seen, results, count);
    r := Report(Take(results, MAX_RESULTS), count, |results| >= MAX_RESULTS);
  }

  /** What a path leads to. */
  datatype Target = Missing | SingleFile(file: File) | Tree(root: Dir)

  /** A file named by the path itself is searched whatever its suffix and name. */
  function TargetFiles(q: Query, target: Target): seq<File>
    requires !target.Missing?
  {
    if target.SingleFile? then [target.file] else EligibleIn(q, Walk(target.root))
  }

  method Search(q: Query, target: Target) returns (r: Option<Report>)
    ensures r.None? <==> target.Missing?
    ensures r.Some? ==>
              var files := TargetFiles(q, target);
              && Reports(q, files, r.value.lines, r.value.filesSearched)
              && (r.value.capped <==> |AllMatches(q, files)| >= MAX_RESULTS)
  {
    match target
    case Missing =>
      r := None;
    case SingleFile(f) =>
      var matches := SearchFile(q, f);
      OneFileMatches(q, f);
      r := Some(Report(matches, 1, |matches| >= MAX_RESULTS));
    case Tree(root) =>
      var report := SearchTree(q, root);
      r := Some(report);
  }

  /** The loop's state: the files `seen` so far, of which the first `count` were searched. */
  predicate Partial(q: Query, seen: seq<File>, results: seq<string>, count: nat) {
    && count <= |seen|
    && Take(results, MAX_RESULTS) == Take(AllMatches(q, seen[..count]), MAX_RESULTS)
    && (|results| >= MAX_RESULTS <==> |AllMatches(q, seen[..count])| >= MAX_RESULTS)
    && (|results| < MAX_RESULTS ==> count == |seen| && results == AllMatches(q, seen))
    && (count > 0 ==> |AllMatches(q, seen[..count - 1])| < MAX_RESULTS)
  }

  /** The files of one directory, up to the cap. */
  method SearchDirectory(q: Query, files: seq<File>, ghost seen: seq<File>, results0: seq<string>, count0: nat)
    returns (results: seq<string>, count: nat)
    requires Partial(q, seen, results0, count0)
    ensures Partial(q, seen + Eligible(q, files), results, count)
  {
    hide Partial, AllMatches, FileMatches;
    results, count := results0, count0;
    assert seen + [] == seen;
    for i := 0 to |files|
      invariant Partial(q, seen + Eligible(q, files[..i]), results, count)
    {
      assert files[..i + 1][..i] == files[..i];
      ghost var before := seen + Eligible(q, files[..i]);
      if |results| >= MAX_RESULTS {
        EligiblePrefix(q, files, i);
        ghost var rest := Eligible(q, files)[|Eligible(q, files[..i])|..];
        PartialStays(q, before, results, count, rest);
        assert before + rest == seen + Eligible(q, files);
        return;
      }
      if Searched(q, files[i]) {
        count := count + 1;
        var matches := SearchFile(q, files[i]);
        PartialCount(q, before, results, count - 1);
        PartialGrows(q, before, results, files[i]);
        results := results + matches;
        assert seen + Eligible(q, files[..i + 1]) == before + [files[i]];
      } else {
        assert Eligible(q, files[..i + 1]) == Eligible(q, files[..i]) + [];
        assert seen + Eligible(q, files[..i + 1]) == before;
      }
    }
    assert files[..|files|] == files;
  }

  // ---- Lemmas of the search ----

  lemma {:induction false} LineMatchesGrow(q: Query, path: string, lines: seq<string>, k: nat)
    requires k <= |lines|
    ensures LineMatches(q, path, lines[..k]) <= LineMatches(q, path, lines)
  {
    if k < |lines| {
      var front := lines[..|lines| - 1];
      LineMatchesGrow(q, path, front, k);
      assert front[..k] == lines[..k];
    } else {
      assert lines[..k] == lines;
    }
  }

  lemma {:induction false} EligiblePrefix(q: Query, files: seq<File>, k: nat)
    requires k <= |files|
    ensures Eligible(q, files[..k]) <= Eligible(q, files)
  {
    if k < |files| {
      var front := files[..|files| - 1];
      EligiblePrefix(q, front, k);
      assert front[..k] == files[..k];
    } else {
      assert files[..k] == files;
    }
  }

  lemma {:induction false} MatchesPrefix(q: Query, files: seq<File>, k: nat)
    requires k <= |files|
    ensures AllMatches(q, files[..k]) <= AllMatches(q, files)
  {
    if k < |files| {
      var front := files[..|files| - 1];
      MatchesPrefix(q, front, k);
      assert front[..k] == files[..k];
    } else {
      assert files[..k] == files;
    }
  }

  lemma OneFileMatches(q: Query, f: File)
    ensures AllMatches(q, [f]) == FileMatches(q, f)
    ensures AllMatches(q, [f][..0]) == []
  {
    assert [f][..0] == [];
  }

  lemma TakePrefix<T>(a: seq<T>, b: seq<T>, n: nat)
    requires a <= b && |a| >= n
    ensures Take(a, n) == Take(b, n)
  {
  }

  lemma PartialCount(q: Query, seen: seq<File>, results: seq<string>, count: nat)
    requires Partial(q, seen, results, count) && |results| < MAX_RESULTS
    ensures count == |seen|
  {
  }

  lemma PartialStays(q: Query, seen: seq<File>, results: seq<string>, count: nat, more: seq<File>)
    requires Partial(q, seen, results, count) && |results| >= MAX_RESULTS
    ensures Partial(q, seen + more, results, count)
  {
    assert (seen + more)[..count] == seen[..count];
    if count > 0 {
      assert (seen + more)[..count - 1] == seen[..count - 1];
    }
  }

  /** Capping a file's matches does not show in the capped whole. */
  lemma PartialGrows(q: Query, seen: seq<File>, results: seq<string>, f: File)
    requires Partial(q, seen, results, |seen|) && |results| < MAX_RESULTS
    ensures Partial(q, seen + [f], results + Take(FileMatches(q, f), MAX_RESULTS), |seen| + 1)
  {
    var all := seen + [f];
    assert all[..|seen|] == seen && all[..|seen| + 1] == all;
    assert seen[..|seen|] == seen;
    assert AllMatches(q, all) == results + FileMatches(q, f);
    hide AllMatches, FileMatches;
    assert Take(results + Take(FileMatches(q, f), MAX_RESULTS), MAX_RESULTS)
        == Take(results + FileMatches(q, f), MAX_RESULTS);
  }

  lemma PartialReports(q: Query, seen: seq<File>, results: seq<string>, count: nat)
    requires Partial(q, seen, results, count)
    ensures Reports(q, seen, Take(results, MAX_RESULTS), count)
    ensures |results| >= MAX_RESULTS <==> |AllMatches(q, seen)| >= MAX_RESULTS
  {
    MatchesPrefix(q, seen, count);
    if |results| >= MAX_RESULTS {
      TakePrefix(AllMatches(q, seen[..count]), AllMatches(q, seen), MAX_RESULTS);
    } else {
      assert seen[..count] == seen;
    }
  }

  /** A report says that results were capped exactly when there are fifty matches or more,
      so it says so too when precisely fifty exist and none was left out. */
  lemma CappedThoughComplete(q: Query, files: seq<File>, lines: seq<string>, count: nat)
    requires Reports(q, files, lines, count)
    ensures lines == AllMatches(q, files) <==> |AllMatches(q, files)| <= MAX_RESULTS
  {
  }

  // ---- What is reported ----

  /** The report is a beginning of all matches: all of them, or fifty. */
  lemma ReportIsBeginning(q: Query, files: seq<File>, lines: seq<string>, count: nat)
    requires Reports(q, files, lines, count)
    ensures lines <= AllMatches(q, files)
    ensures |lines| == if |AllMatches(q, files)| < 50 then |AllMatches(q, files)| else 50
  {
  }

  /** The numbers of the lines that the pattern hits, among the first `k`. */
  function HitNumbers(q: Query, lines: seq<string>, k: nat): seq<nat>
    requires k <= |lines|
  {
    if k == 0 then [] else HitNumbers(q, lines, k - 1) + if q.hit(lines[k - 1]) then [k] else []
  }

  predicate Rising(ns: seq<nat>) {
    forall i, j :: 0 <= i < j < |ns| ==> ns[i] < ns[j]
  }

  lemma RisingNext(ns: seq<nat>, n: nat)
    requires Rising(ns) && forall m <- ns :: m < n
    ensures Rising(ns + [n])
  {
    var more := ns + [n];
    forall i, j | 0 <= i < j < |more| ensures more[i] < more[j] {
      assert ns[i] in ns;
    }
  }

  lemma {:induction false} HitNumbersAreHits(q: Query, lines: seq<string>, k: nat)
    requires k <= |lines|
    ensures forall n: nat :: n in HitNumbers(q, lines, k) <==> 1 <= n <= k && q.hit(lines[n - 1])
    ensures Rising(HitNumbers(q, lines, k))
  {
    if k > 0 {
      HitNumbersAreHits(q, lines, k - 1);
      var before := HitNumbers(q, lines, k - 1);
      assert before + [] == before;
      RisingNext(before, k);
    }
  }

  /** `rstrip` takes white space from the end, and all of it. */
  lemma {:induction false} RStripMeets(s: string)
    ensures var r := RStrip(s);
            && r <= s && (forall i :: |r| <= i < |s| ==> IsSpace(s[i]))
            && (r != "" ==> !IsSpace(r[|r| - 1]))
  {
    if s != "" && IsSpace(s[|s| - 1]) {
      RStripMeets(s[..|s| - 1]);
    }
  }

  /** A reported line: the path, the line's number and its text without white space at the
      end, of which at most five hundred characters are shown. */
  ghost predicate TellsLine(shown: string, path: string, n: nat, line: string) {
    exists number ::
      && TellsNumber(number, n)
      && shown == path + ":" + number + ": "
                  + if |RStrip(line)| > 500 then RStrip(line)[..500] + "..." else RStrip(line)
  }

  predicate TellsNumber(number: string, n: nat) {
    IsNumeral(number) && NumeralValue(number) == n
  }

  lemma ShownTells(path: string, n: nat, line: string)
    ensures TellsLine(ShowMatch(path, n, line), path, n, line)
  {
    DecimalReads(n);
    assert TellsNumber(Decimal(n), n);
    hide Decimal, RStrip, IsNumeral, NumeralValue;
  }

  lemma {:induction false} MatchesTell(q: Query, path: string, lines: seq<string>, k: nat)
    requires k <= |lines|
    ensures var ns, shown := HitNumbers(q, lines, k), LineMatches(q, path, lines[..k]);
            && |shown| == |ns|
            && forall i :: 0 <= i < |ns| ==> 1 <= ns[i] <= k && TellsLine(shown[i], path, ns[i], lines[ns[i] - 1])
  {
    hide ShowMatch, TellsLine;
    if k == 0 {
      assert lines[..0] == [];
    } else {
      MatchesTell(q, path, lines, k - 1);
      assert lines[..k][..k - 1] == lines[..k - 1] && lines[..k][k - 1] == lines[k - 1];
      ShownTells(path, k, lines[k - 1]);
    }
  }

  /** The matches of a file: one for each line that the pattern hits, in order, each with the
      file's path and the line's own number and text. */
  lemma FileMatchesTell(q: Query, f: File)
    ensures var ns, shown := HitNumbers(q, f.lines, |f.lines|), FileMatches(q, f);
            && |shown| == |ns|
            && (forall n: nat :: n in ns <==> 1 <= n <= |f.lines| && q.hit(f.lines[n - 1]))
            && Rising(ns)
            && forall i :: 0 <= i < |ns| ==> 1 <= ns[i] <= |f.lines| && TellsLine(shown[i], f.path, ns[i], f.lines[ns[i] - 1])
  {
    HitNumbersAreHits(q, f.lines, |f.lines|);
    MatchesTell(q, f.path, f.lines, |f.lines|);
    assert f.lines[..|f.lines|] == f.lines;
    hide HitNumbers, LineMatches, TellsLine;
  }

  /** Files are searched one after the other. */
  lemma {:induction false} MatchesConcat(q: Query, a: seq<File>, b: seq<File>)
    ensures AllMatches(q, a + b) == AllMatches(q, a) + AllMatches(q, b)
  {
    hide FileMatches;
    if b == [] {
      assert a + b == a;
    } else {
      assert (a + b)[..|a + b| - 1] == a + b[..|b| - 1];
      MatchesConcat(q, a, b[..|b| - 1]);
    }
  }

  // ---- Which files are searched ----

  lemma {:induction false} EligibleConcat(q: Query, a: seq<File>, b: seq<File>)
    ensures Eligible(q, a + b) == Eligible(q, a) + Eligible(q, b)
  {
    hide Searched;
    if b == [] {
      assert a + b == a;
    } else {
      assert (a + b)[..|a + b| - 1] == a + b[..|b| - 1];
      EligibleConcat(q, a, b[..|b| - 1]);
    }
  }

  lemma {:induction false} EligibleInConcat(q: Query, a: seq<seq<File>>, b: seq<seq<File>>)
    ensures EligibleIn(q, a + b) == EligibleIn(q, a) + EligibleIn(q, b)
  {
    hide Eligible;
    if b == [] {
      assert a + b == a;
    } else {
      assert (a + b)[..|a + b| - 1] == a + b[..|b| - 1];
      EligibleInConcat(q, a, b[..|b| - 1]);
    }
  }

  /** Of single files: those that are not binary and whose name is included. */
  lemma EligibleFile(q: Query, f: File)
    ensures Eligible(q, [f]) == if !f.binary && q.included(f.name) then [f] else []
  {
    assert [f][..0] == [];
  }

  lemma FirstOfWalk(dirs: seq<Dir>)
    requires dirs != []
    ensures WalkBelow(dirs) == (if dirs[0].name in SKIP_DIRS then [] else Walk(dirs[0])) + WalkBelow(dirs[1..])
  {
  }

  lemma {:induction false} WalkBelowConcat(a: seq<Dir>, b: seq<Dir>)
    ensures WalkBelow(a + b) == WalkBelow(a) + WalkBelow(b)
    decreases |a|
  {
    if a == [] {
      assert a + b == b;
    } else {
      FirstOfWalk(a);
      FirstOfWalk(a + b);
      hide Walk, WalkBelow;
      FirstOfConcat(a, b);
      WalkBelowConcat(a[1..], b);
      Associates(if a[0].name in SKIP_DIRS then [] else Walk(a[0]), WalkBelow(a[1..]), WalkBelow(b));
    }
  }

  /** The files of a directory come before those below it, and its subdirectories one after
      the other, the skipped ones with all that is in them left out. */
  lemma WalkOrder(d: Dir, i: nat)
    requires i < |d.dirs|
    ensures Walk(d) == [d.files] + WalkBelow(d.dirs[..i])
                       + (if d.dirs[i].name in SKIP_DIRS then [] else Walk(d.dirs[i]))
                       + WalkBelow(d.dirs[i + 1..])
  {
    assert Walk(d) == [d.files] + WalkBelow(d.dirs);
    WalkAround(d.dirs, i);
    hide WalkBelow, Walk;
  }

  lemma WalkAround(dirs: seq<Dir>, i: nat)
    requires i < |dirs|
    ensures WalkBelow(dirs)
            == WalkBelow(dirs[..i]) + (if dirs[i].name in SKIP_DIRS then [] else Walk(dirs[i])) + WalkBelow(dirs[i + 1..])
  {
    hide WalkBelow, Walk;
    var front, back := dirs[..i], dirs[i + 1..];
    WalkBelowConcat(front + [dirs[i]], back);
    WalkBelowConcat(front, [dirs[i]]);
    OneWalkBelow(dirs[i]);
    hide SKIP_DIRS;
    Around(dirs, i);
  }

  lemma Around<T>(s: seq<T>, i: nat)
    requires i < |s|
    ensures s[..i] + [s[i]] + s[i + 1..] == s
  {
  }

  lemma OneWalkBelow(d: Dir)
    ensures WalkBelow([d]) == if d.name in SKIP_DIRS then [] else Walk(d)
  {
    assert [d][1..] == [];
    hide Walk;
  }

  /** A file that the walk can get to without entering a skipped directory. */
  ghost predicate Reachable(d: Dir, f: File)
    decreases d
  {
    f in d.files || exists sub :: sub in d.dirs && sub.name !in SKIP_DIRS && Reachable(sub, f)
  }

  ghost predicate Visits(walk: seq<seq<File>>, f: File) {
    exists i :: 0 <= i < |walk| && f in walk[i]
  }

  lemma VisitsConcat(a: seq<seq<File>>, b: seq<seq<File>>, f: File)
    ensures Visits(a + b, f) <==> Visits(a, f) || Visits(b, f)
  {
    if Visits(a, f) {
      var i :| 0 <= i < |a| && f in a[i];
      assert f in (a + b)[i];
    }
    if Visits(b, f) {
      var i :| 0 <= i < |b| && f in b[i];
      assert f in (a + b)[|a| + i];
    }
  }

  lemma {:induction false} VisitsBelow(dirs: seq<Dir>, f: File)
    ensures Visits(WalkBelow(dirs), f) <==> exists sub :: sub in dirs && sub.name !in SKIP_DIRS && Reachable(sub, f)
    decreases dirs
  {
    if dirs == [] {
      assert !Visits([], f);
    } else {
      var first := if dirs[0].name in SKIP_DIRS then [] else Walk(dirs[0]);
      VisitsConcat(first, WalkBelow(dirs[1..]), f);
      VisitsBelow(dirs[1..], f);
      VisitsReachable(dirs[0], f);
      hide Reachable, Visits, Walk;
      assert dirs == [dirs[0]] + dirs[1..];
      assert forall sub :: sub in dirs <==> sub == dirs[0] || sub in dirs[1..];
      assert dirs[0].name in SKIP_DIRS ==> !Visits(first, f) by { NoVisit(f); }
    }
  }

  lemma NoVisit(f: File)
    ensures !Visits([], f)
  {
  }

  /** The walk visits exactly the files that it can get to. */
  lemma {:induction false} VisitsReachable(d: Dir, f: File)
    ensures Visits(Walk(d), f) <==> Reachable(d, f)
    decreases d
  {
    VisitsBelow(d.dirs, f);
    VisitsConcat([d.files], WalkBelow(d.dirs), f);
    assert [d.files][0] == d.files;
    assert Visits([d.files], f) <==> f in d.files;
  }
}
