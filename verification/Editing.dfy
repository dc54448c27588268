/** Exact-match editing of one file: single edits and atomic lists of edits
    (enclave/tools/edit_file.py:64-141, enclave/tools/multi_edit_tool.py:95-143). */
module Editing {
  import opened Matching

  datatype Edit = Edit(oldStr: string, newStr: string)

  /** Why an edit is refused; `index` counts the edits of a list from 1. */
  datatype Refusal =
    | FileNotFound
    | NotAFile
    | Unreadable
    | NoMatch(index: nat)
    | Ambiguous(index: nat, count: nat)
    | WriteFailed

  datatype Result<+T> = Done(value: T) | Refused(why: Refusal)

  /** One edit of a text: the old string must count exactly once. */
  function Apply(text: string, e: Edit, index: nat): Result<string> {
    var count := Count(text, e.oldStr);
    if count == 0 then Refused(NoMatch(index))
    else if count > 1 then Refused(Ambiguous(index, count))
    else Done(ReplaceFirst(text, e.oldStr, e.newStr))
  }

  /** Edits `index`, `index + 1`, ... one after the other, up to the first refusal. */
  function ApplyAll(text: string, edits: seq<Edit>, index: nat): Result<string>
    decreases |edits|
  {
    if edits == [] then Done(text)
    else
      match Apply(text, edits[0], index)
      case Done(next) => ApplyAll(next, edits[1..], index + 1)
      case Refused(why) => Refused(why)
  }

  // ---- The tools on a file ----

  datatype Content = Missing | Directory | Undecodable | Readable(text: string)

  /** What becomes of an attempt to write a file. Writing empties the file before it puts
      the new text in, so a failure may leave anything. */
  datatype Writing = Succeeds | Fails(left: Content)

  class File {
    var content: Content

    constructor (content: Content)
      ensures this.content == content
    {
      this.content := content;
    }
  }

  /** The answer of a tool that turns a text into a result. */
  function Answer(content: Content, disk: Writing, edited: Result<string>): Result<string> {
    match content
    case Missing => Refused(FileNotFound)
    case Directory => Refused(NotAFile)
    case Undecodable => Refused(Unreadable)
    case Readable(_) => if edited.Done? && disk.Fails? then Refused(WriteFailed) else edited
  }

  /** The file behind that answer: only an accepted edit writes at all. */
  function ContentAfter(content: Content, disk: Writing, answer: Result<string>): Content {
    match answer
    case Done(text) => Readable(text)
    case Refused(why) => if why == WriteFailed && disk.Fails? then disk.left else content
  }

  method ReadText(f: File) returns (r: Result<string>)
    ensures match f.content
            case Readable(text) => r == Done(text)
            case Missing => r == Refused(FileNotFound)
            case Directory => r == Refused(NotAFile)
            case Undecodable => r == Refused(Unreadable)
  {
    match f.content
    case Missing => r := Refused(FileNotFound);
    case Directory => r := Refused(NotAFile);
    case Undecodable => r := Refused(Unreadable);
    case Readable(text) => r := Done(text);
  }

  method WriteText(f: File, text: string, disk: Writing) returns (ok: bool)
    modifies f
    ensures ok == disk.Succeeds?
    ensures f.content == if ok then Readable(text) else disk.left
  {
    ok := disk.Succeeds?;
    f.content := if ok then Readable(text) else disk.left;
  }

  method EditFile(f: File, e: Edit, disk: Writing) returns (r: Result<string>)
    modifies f
    ensures r == Answer(old(f.content), disk,
                        if old(f.content).Readable? then Apply(old(f.content.text), e, 1) else Done(""))
    ensures f.content == ContentAfter(old(f.content), disk, r)
  {
    var original := ReadText(f);
    if original.Refused? {
      return original;
    }
    var count := Count(original.value, e.oldStr);
    if count == 0 {
      return Refused(NoMatch(1));
    }
    if count > 1 {
      return Refused(Ambiguous(1, count));
    }
    var edited := ReplaceFirst(original.value, e.oldStr, e.newStr);
    var ok := WriteText(f, edited, disk);
    r := if ok then Done(edited) else Refused(WriteFailed);
  }

  /** The file is untouched unless every edit was accepted. */
  method MultiEdit(f: File, edits: seq<Edit>, disk: Writing) returns (r: Result<string>)
    modifies f
    ensures r == Answer(old(f.content), disk,
                        if old(f.content).Readable? then ApplyAll(old(f.content.text), edits, 1) else Done(""))
    ensures f.content == ContentAfter(old(f.content), disk, r)
  {
    var original := ReadText(f);
    if original.Refused? {
      return original;
    }
    var current, applied := original.value, 0;
    for i := 0 to |edits|
      invariant applied == i && f.content == old(f.content)
      invariant ApplyAll(original.value, edits, 1) == ApplyAll(current, edits[i..], i + 1)
    {
      var count := Count(current, edits[i].oldStr);
      if count == 0 {
        return Refused(NoMatch(applied + 1));
      }
      if count > 1 {
        return Refused(Ambiguous(applied + 1, count));
      }
      current := ReplaceFirst(current, edits[i].oldStr, edits[i].newStr);
      applied := applied + 1;
    }
    var ok := WriteText(f, current, disk);
    r := if ok then Done(current) else Refused(WriteFailed);
  }

  lemma {:induction false} RefusedForEdit(text: string, edits: seq<Edit>, index: nat)
    ensures var r := ApplyAll(text, edits, index); r.Refused? ==> r.why.NoMatch? || r.why.Ambiguous?
    decreases |edits|
  {
    if edits != [] && Apply(text, edits[0], index).Done? {
      RefusedForEdit(Apply(text, edits[0], index).value, edits[1..], index + 1);
    }
  }

  /** The original text is gone only by an accepted edit: every refusal for the edits' own
      sake, and every failure to read, leaves the file as it was. */
  lemma RefusalKeepsFile(content: Content, disk: Writing, edits: seq<Edit>)
    ensures var edited := if content.Readable? then ApplyAll(content.text, edits, 1) else Done("");
            var answer := Answer(content, disk, edited);
            && (answer.Refused? && answer.why != WriteFailed ==> ContentAfter(content, disk, answer) == content)
            && (answer == Refused(WriteFailed) <==> content.Readable? && edited.Done? && disk.Fails?)
            && (answer == Refused(FileNotFound) <==> content.Missing?)
            && (answer == Refused(NotAFile) <==> content.Directory?)
            && (answer == Refused(Unreadable) <==> content.Undecodable?)
  {
    if content.Readable? {
      RefusedForEdit(content.text, edits, 1);
    }
  }

  /** An edit of a file succeeds exactly if the file can be read and written and the edit is
      accepted, and then the file holds the text with the first match replaced. */
  lemma EditSucceedsExactly(content: Content, disk: Writing, e: Edit)
    requires e.oldStr != ""
    ensures var answer := Answer(content, disk, if content.Readable? then Apply(content.text, e, 1) else Done(""));
            && (answer.Done? <==>
                && content.Readable? && disk.Succeeds?
                && (exists j: int :: MatchesAt(content.text, e.oldStr, j)) && Huddled(content.text, e.oldStr))
            && (answer.Done? ==>
                  && ContentAfter(content, disk, answer) == Readable(answer.value)
                  && FirstReplaced(content.text, e, answer.value))
  {
    if content.Readable? {
      AcceptedExactly(content.text, e, 1);
    }
    hide MatchesAt, Huddled, Apply, FirstReplaced;
  }

  // ---- One edit ----

  /** An accepted edit of a non-empty string replaces the first match; a match that is
      overlooked overlaps the one replaced, and there is none if the string has no border. */
  lemma AcceptedEdit(text: string, e: Edit)
    requires e.oldStr != "" && Apply(text, e, 1).Done?
    ensures var k := Find(text, e.oldStr, 0);
            && MatchesAt(text, e.oldStr, k)
            && Apply(text, e, 1).value == text[..k] + e.newStr + text[k + |e.oldStr|..]
            && (forall j :: MatchesAt(text, e.oldStr, j) ==> k <= j < k + |e.oldStr|)
            && (Borderless(e.oldStr) ==> forall j :: MatchesAt(text, e.oldStr, j) ==> j == k)
  {
    CountOne(text, e.oldStr);
    if Borderless(e.oldStr) {
      forall j | MatchesAt(text, e.oldStr, j) ensures j == Find(text, e.oldStr, 0) {
        CountOneIsUnique(text, e.oldStr, j);
      }
    }
  }

  /** `edited` is the text with the first match of the old string replaced. */
  ghost predicate FirstReplaced(text: string, e: Edit, edited: string) {
    exists k: nat :: FirstMatch(text, e.oldStr, k) && edited == text[..k] + e.newStr + text[k + |e.oldStr|..]
  }

  ghost predicate FirstMatch(text: string, p: string, k: nat) {
    MatchesAt(text, p, k) && forall j: int :: MatchesAt(text, p, j) ==> k <= j
  }

  /** Exactly when an edit is accepted, whatever it puts in: its string matches somewhere and
      all its matches overlap, so for a string without a border, when it occurs once. */
  lemma AcceptedExactly(text: string, e: Edit, index: nat)
    requires e.oldStr != ""
    ensures Apply(text, e, index).Done? <==>
            (exists j: int :: MatchesAt(text, e.oldStr, j)) && Huddled(text, e.oldStr)
    ensures Borderless(e.oldStr) ==> (Apply(text, e, index).Done? <==> Occurrences(text, e.oldStr, 0) == 1)
    ensures Apply(text, e, index).Done? ==> FirstReplaced(text, e, Apply(text, e, index).value)
  {
    CountOneExactly(text, e.oldStr);
    CountZero(text, e.oldStr);
    if Borderless(e.oldStr) {
      BorderlessCount(text, e.oldStr, 0);
    }
    hide Occurrences, Huddled, CountFrom, Borderless;
    if Apply(text, e, index).Done? {
      CountOne(text, e.oldStr);
      assert FirstMatch(text, e.oldStr, Find(text, e.oldStr, 0));
    }
  }

  /** Exactly when it is refused, and with which words: nothing matches, or several matches
      do not overlap, and then their largest number is told. */
  lemma RefusedExactly(text: string, e: Edit, index: nat, n: nat)
    requires e.oldStr != ""
    ensures Apply(text, e, index) == Refused(NoMatch(index)) <==> forall j: int :: !MatchesAt(text, e.oldStr, j)
    ensures Apply(text, e, index) == Refused(Ambiguous(index, n)) <==> n >= 2 && Largest(text, e.oldStr, n)
    ensures Apply(text, e, index).Refused? ==>
              Apply(text, e, index).why in {NoMatch(index), Ambiguous(index, Count(text, e.oldStr))}
  {
    CountZero(text, e.oldStr);
    CountIsLargest(text, e.oldStr, n);
    hide MatchesAt, Largest, CountFrom, ReplaceFirst;
  }

  /** The tool promises that an accepted string matches exactly one location. That promise
      is kept on every text exactly for the strings without a border. */
  lemma PromiseIsKeptExactly(p: string)
    requires p != ""
    ensures Borderless(p) <==>
            forall text :: Apply(text, Edit(p, ""), 1).Done? <==> Occurrences(text, p, 0) == 1
  {
    if Borderless(p) {
      forall text ensures Apply(text, Edit(p, ""), 1).Done? <==> Occurrences(text, p, 0) == 1 {
        BorderlessCount(text, p, 0);
      }
    } else {
      var b :| 1 <= b < |p| && Border(p, b);
      OverlappedCountsOnce(p, b);
      assert Apply(Overlapped(p, b), Edit(p, ""), 1).Done?;
    }
  }

  lemma ReplaceAt(pre: string, e: Edit, suf: string)
    requires Find(pre + e.oldStr + suf, e.oldStr, 0) == |pre|
    ensures ReplaceFirst(pre + e.oldStr + suf, e.oldStr, e.newStr) == pre + e.newStr + suf
  {
    var s := pre + e.oldStr + suf;
    assert s[..|pre|] == pre;
    assert s[|pre| + |e.oldStr|..] == suf;
  }

  lemma MatchInside(pre: string, p: string, suf: string)
    ensures MatchesAt(pre + p + suf, p, |pre|)
  {
    assert (pre + p + suf)[|pre|..|pre| + |p|] == p;
  }

  /** An accepted edit finds its borderless string wherever the text is known to hold it. */
  lemma EditAt(pre: string, e: Edit, suf: string, index: nat)
    requires e.oldStr != "" && Borderless(e.oldStr)
    requires Apply(pre + e.oldStr + suf, e, index).Done?
    ensures Apply(pre + e.oldStr + suf, e, index) == Done(pre + e.newStr + suf)
  {
    MatchInside(pre, e.oldStr, suf);
    CountOneIsUnique(pre + e.oldStr + suf, e.oldStr, |pre|);
    ReplaceAt(pre, e, suf);
  }

  lemma SplitAtMatch(text: string, p: string, k: int)
    requires MatchesAt(text, p, k)
    ensures text == text[..k] + p + text[k + |p|..]
  {
  }

  function Inverse(e: Edit): Edit {
    Edit(e.newStr, e.oldStr)
  }

  lemma SameMiddle(a: string, x: string, y: string, c: string)
    ensures a + x + c == a + y + c <==> x == y
  {
    if a + x + c == a + y + c {
      assert |x| == |y|;
      assert x == (a + x + c)[|a|..|a| + |x|];
      assert y == (a + y + c)[|a|..|a| + |y|];
    }
  }

  lemma GapIsPrefix(pre: string, inserted: string, suf: string, k: nat)
    requires k <= |pre| <= k + |inserted| && MatchesAt(pre + inserted + suf, inserted, k)
    ensures pre[k..] == inserted[..|pre| - k]
  {
    var edited := pre + inserted + suf;
    var found := edited[k..k + |inserted|];
    forall i | 0 <= i < |pre| - k ensures pre[k..][i] == inserted[..|pre| - k][i] {
      assert found[i] == edited[k + i];
    }
  }

  lemma TailIsSuffix(pre: string, inserted: string, suf: string, k: nat)
    requires k <= |pre| <= k + |inserted|
    ensures (pre + inserted + suf)[..k] == pre[..k]
    ensures (pre + inserted + suf)[k + |inserted|..] == inserted[|inserted| - (|pre| - k)..] + suf
  {
  }

  lemma ReplacedAt(s: string, oldStr: string, newStr: string, k: nat)
    requires Find(s, oldStr, 0) == k && k + |oldStr| <= |s|
    ensures ReplaceFirst(s, oldStr, newStr) == s[..k] + newStr + s[k + |oldStr|..]
  {
  }

  /** What undoing gives when the new string is first found at `k`, before the place just
      edited. */
  lemma UndoShifted(pre: string, e: Edit, suf: string, k: nat)
    requires k <= |pre| <= k + |e.newStr| && Find(pre + e.newStr + suf, e.newStr, 0) == k
    requires MatchesAt(pre + e.newStr + suf, e.newStr, k)
    ensures var d := |pre| - k;
            ReplaceFirst(pre + e.newStr + suf, e.newStr, e.oldStr) == pre + e.oldStr + suf <==>
            e.oldStr + e.newStr[|e.newStr| - d..] == e.newStr[..d] + e.oldStr
  {
    hide Find, MatchesAt, ReplaceFirst;
    ReplacedAt(pre + e.newStr + suf, e.newStr, e.oldStr, k);
    GapIsPrefix(pre, e.newStr, suf, k);
    TailIsSuffix(pre, e.newStr, suf, k);
    SplitAt(pre, k);
    ShiftedMiddle(pre[..k], e.oldStr, pre[k..], e.newStr[|e.newStr| - (|pre| - k)..], suf);
  }

  lemma SplitAt(s: string, k: nat)
    requires k <= |s|
    ensures s[..k] + s[k..] == s
  {
  }

  lemma UndoAt(pre: string, e: Edit, suf: string)
    requires Apply(pre + e.newStr + suf, Inverse(e), 1).Done?
    ensures var edited := pre + e.newStr + suf;
            var d := |pre| - Find(edited, e.newStr, 0);
            && 0 <= d <= |e.newStr|
            && (Apply(edited, Inverse(e), 1) == Done(pre + e.oldStr + suf) <==>
                e.oldStr + e.newStr[|e.newStr| - d..] == e.newStr[..d] + e.oldStr)
            && (Borderless(e.newStr) ==> d == 0)
  {
    hide Find, MatchesAt, ReplaceFirst, Borderless, Apply;
    var edited := pre + e.newStr + suf;
    UndoApplies(edited, e);
    UndoPlace(pre, e, suf);
    UndoShifted(pre, e, suf, Find(edited, e.newStr, 0));
  }

  /** Undoing: the swapped edit, when it is accepted, finds the new string `d` places before
      the place just edited, and restores the text exactly when moving the old string past
      `d` characters of the new one makes no difference; so always when `d` is zero, as it
      is for a new string without a border. */
  lemma UndoEdit(text: string, e: Edit)
    requires e.oldStr != "" && Apply(text, e, 1).Done?
    requires Apply(Apply(text, e, 1).value, Inverse(e), 1).Done?
    ensures var edited := Apply(text, e, 1).value;
            var d := Find(text, e.oldStr, 0) - Find(edited, e.newStr, 0);
            && 0 <= d <= |e.newStr|
            && (Apply(edited, Inverse(e), 1) == Done(text) <==>
                e.oldStr + e.newStr[|e.newStr| - d..] == e.newStr[..d] + e.oldStr)
            && (Borderless(e.newStr) ==> d == 0)
  {
    hide Find, MatchesAt, Borderless, Apply;
    AcceptedEdit(text, e);
    var k := Find(text, e.oldStr, 0);
    MatchFits(text, e.oldStr, k);
    SplitAtMatch(text, e.oldStr, k);
    UndoAt(text[..k], e, text[k + |e.oldStr|..]);
  }

  lemma ShiftedMiddle(a: string, old0: string, gap: string, tail: string, c: string)
    ensures a + old0 + (tail + c) == (a + gap) + old0 + c <==> old0 + tail == gap + old0
  {
    assert a + old0 + (tail + c) == a + (old0 + tail) + c;
    assert (a + gap) + old0 + c == a + (gap + old0) + c;
    SameMiddle(a, old0 + tail, gap + old0, c);
  }

  lemma UndoApplies(edited: string, e: Edit)
    requires Apply(edited, Inverse(e), 1).Done?
    ensures Apply(edited, Inverse(e), 1) == Done(ReplaceFirst(edited, e.newStr, e.oldStr))
  {
    hide ReplaceFirst, Count;
  }

  lemma UndoPlace(pre: string, e: Edit, suf: string)
    requires Apply(pre + e.newStr + suf, Inverse(e), 1).Done?
    ensures var k := Find(pre + e.newStr + suf, e.newStr, 0);
            && 0 <= k <= |pre| <= k + |e.newStr|
            && MatchesAt(pre + e.newStr + suf, e.newStr, k)
            && (Borderless(e.newStr) ==> k == |pre|)
  {
    var edited := pre + e.newStr + suf;
    MatchInside(pre, e.newStr, suf);
    FindMeets(edited, e.newStr, 0);
    if e.newStr != "" {
      CountOne(edited, e.newStr);
      if Borderless(e.newStr) {
        CountOneIsUnique(edited, e.newStr, |pre|);
      }
    }
  }

  // ---- Two edits ----

  /** Both edits' strings, not overlapping, in this order. */
  lemma CommuteInOrder(a: string, e1: Edit, b: string, e2: Edit, c: string)
    requires e1.oldStr != "" && Borderless(e1.oldStr) && e2.oldStr != "" && Borderless(e2.oldStr)
    requires var text := a + e1.oldStr + b + e2.oldStr + c;
             ApplyAll(text, [e1, e2], 1).Done? && ApplyAll(text, [e2, e1], 1).Done?
    ensures var text := a + e1.oldStr + b + e2.oldStr + c;
            ApplyAll(text, [e1, e2], 1) == ApplyAll(text, [e2, e1], 1)
            == Done(a + e1.newStr + b + e2.newStr + c)
  {
    hide Apply;
    var text := a + e1.oldStr + b + e2.oldStr + c;
    PairOfEdits(text, e1, e2);
    PairOfEdits(text, e2, e1);
    assert text == a + e1.oldStr + (b + e2.oldStr + c);
    EditAt(a, e1, b + e2.oldStr + c, 1);
    assert a + e1.newStr + (b + e2.oldStr + c) == (a + e1.newStr + b) + e2.oldStr + c;
    EditAt(a + e1.newStr + b, e2, c, 2);
    assert text == (a + e1.oldStr + b) + e2.oldStr + c;
    EditAt(a + e1.oldStr + b, e2, c, 1);
    assert (a + e1.oldStr + b) + e2.newStr + c == a + e1.oldStr + (b + e2.newStr + c);
    EditAt(a, e1, b + e2.newStr + c, 2);
    assert a + e1.newStr + (b + e2.newStr + c) == a + e1.newStr + b + e2.newStr + c;
  }

  lemma PairOfEdits(text: string, e1: Edit, e2: Edit)
    ensures ApplyAll(text, [e1, e2], 1)
            == match Apply(text, e1, 1)
               case Done(next) => Apply(next, e2, 2)
               case Refused(why) => Refused(why)
  {
    assert [e1, e2][1..] == [e2] && [e2][1..] == [];
    match Apply(text, e1, 1)
    case Done(next) =>
      assert ApplyAll(next, [e2], 2) == Apply(next, e2, 2);
    case Refused(_) =>
  }

  /** The old strings occur at disjoint places. */
  predicate Disjoint(text: string, e1: Edit, e2: Edit) {
    var k1, k2 := Find(text, e1.oldStr, 0), Find(text, e2.oldStr, 0);
    k1 + |e1.oldStr| <= k2 || k2 + |e2.oldStr| <= k1
  }

  /** Two edits of borderless strings at disjoint places give the same text in either
      order, whenever both orders are accepted. */
  lemma EditsCommute(text: string, e1: Edit, e2: Edit)
    requires e1.oldStr != "" && Borderless(e1.oldStr) && e2.oldStr != "" && Borderless(e2.oldStr)
    requires Disjoint(text, e1, e2)
    requires ApplyAll(text, [e1, e2], 1).Done? && ApplyAll(text, [e2, e1], 1).Done?
    ensures ApplyAll(text, [e1, e2], 1) == ApplyAll(text, [e2, e1], 1)
  {
    AcceptedPair(text, e1, e2);
    AcceptedPair(text, e2, e1);
    hide ApplyAll, Find, MatchesAt, Borderless;
    var k1, k2 := Find(text, e1.oldStr, 0), Find(text, e2.oldStr, 0);
    if k1 + |e1.oldStr| <= k2 {
      CommuteAt(text, e1, k1, e2, k2);
    } else {
      CommuteAt(text, e2, k2, e1, k1);
    }
  }

  lemma CommuteAt(text: string, e1: Edit, i: int, e2: Edit, j: int)
    requires e1.oldStr != "" && Borderless(e1.oldStr) && e2.oldStr != "" && Borderless(e2.oldStr)
    requires MatchesAt(text, e1.oldStr, i) && MatchesAt(text, e2.oldStr, j) && i + |e1.oldStr| <= j
    requires ApplyAll(text, [e1, e2], 1).Done? && ApplyAll(text, [e2, e1], 1).Done?
    ensures ApplyAll(text, [e1, e2], 1) == ApplyAll(text, [e2, e1], 1)
  {
    hide ApplyAll, Borderless;
    SplitAtTwo(text, e1.oldStr, i, e2.oldStr, j);
    CommuteInOrder(text[..i], e1, text[i + |e1.oldStr|..j], e2, text[j + |e2.oldStr|..]);
  }

  lemma SplitAtTwo(text: string, p: string, i: int, q: string, j: int)
    requires MatchesAt(text, p, i) && MatchesAt(text, q, j) && i + |p| <= j
    ensures text == text[..i] + p + text[i + |p|..j] + q + text[j + |q|..]
  {
  }

  lemma AcceptedPair(text: string, e1: Edit, e2: Edit)
    requires e1.oldStr != "" && ApplyAll(text, [e1, e2], 1).Done?
    ensures MatchesAt(text, e1.oldStr, Find(text, e1.oldStr, 0))
  {
    PairOfEdits(text, e1, e2);
    CountOne(text, e1.oldStr);
  }

  // ---- Lists of edits ----

  /** Lists of edits compose: applying a concatenation is applying one part after the other. */
  lemma {:induction false} ApplyAllConcat(text: string, xs: seq<Edit>, ys: seq<Edit>, index: nat)
    ensures ApplyAll(text, xs + ys, index)
            == match ApplyAll(text, xs, index)
               case Done(next) => ApplyAll(next, ys, index + |xs|)
               case Refused(why) => Refused(why)
    decreases |xs|
  {
    hide Apply;
    if xs == [] {
      assert xs + ys == ys;
    } else {
      assert (xs + ys)[1..] == xs[1..] + ys;
      var first := Apply(text, xs[0], index);
      if first.Done? {
        ApplyAllConcat(first.value, xs[1..], ys, index + 1);
      }
    }
  }

  /** Edit `k` is the one that is refused, on the text that the edits before it leave. */
  predicate RefusedAt(text: string, edits: seq<Edit>, index: nat, k: nat, why: Refusal) {
    && k < |edits|
    && ApplyAll(text, edits[..k], index).Done?
    && Apply(ApplyAll(text, edits[..k], index).value, edits[k], index + k) == Refused(why)
  }

  /** A list is refused exactly for its first edit that is, under that edit's number. */
  lemma ListIsRefusedAt(text: string, edits: seq<Edit>, index: nat, why: Refusal)
    ensures ApplyAll(text, edits, index) == Refused(why) <==> exists k: nat :: RefusedAt(text, edits, index, k, why)
  {
    hide ApplyAll, RefusedAt;
    if ApplyAll(text, edits, index) == Refused(why) {
      var k := RefusedEdit(text, edits, index);
    }
    if k: nat :| RefusedAt(text, edits, index, k, why) {
      RefusalStands(text, edits, index, k, why);
    }
  }

  lemma RefusalStands(text: string, edits: seq<Edit>, index: nat, k: nat, why: Refusal)
    requires RefusedAt(text, edits, index, k, why)
    ensures ApplyAll(text, edits, index) == Refused(why)
  {
    var front, rest := edits[..k], edits[k..];
    assert edits == front + rest && rest[0] == edits[k];
    ApplyAllConcat(text, front, rest, index);
    var before := ApplyAll(text, front, index).value;
    assert ApplyAll(before, rest, index + k) == Refused(why) by { hide Apply; }
    hide ApplyAll, Apply;
  }

  lemma {:induction false} RefusedEdit(text: string, edits: seq<Edit>, index: nat) returns (k: nat)
    requires ApplyAll(text, edits, index).Refused?
    ensures RefusedAt(text, edits, index, k, ApplyAll(text, edits, index).why)
    decreases |edits|
  {
    hide Apply;
    var first := Apply(text, edits[0], index);
    if first.Refused? {
      k := 0;
    } else {
      k := RefusedEdit(first.value, edits[1..], index + 1);
      k := k + 1;
      assert edits[..k][0] == edits[0] && edits[..k][1..] == edits[1..][..k - 1];
    }
  }

  /** Running the edits through the single-edit tool, one call each: a refused edit leaves
      the file as it is and the next call goes on. */
  function OneByOne(text: string, edits: seq<Edit>): (string, bool)
    decreases |edits|
  {
    if edits == [] then (text, true)
    else
      match Apply(text, edits[0], 1)
      case Done(next) => OneByOne(next, edits[1..])
      case Refused(_) => (OneByOne(text, edits[1..]).0, false)
  }

  /** A list is accepted exactly when every single call is, and then both leave the same
      text. */
  lemma {:induction false} ListIsOneByOne(text: string, edits: seq<Edit>, index: nat)
    ensures var (final, allDone) := OneByOne(text, edits);
            var all := ApplyAll(text, edits, index);
            && (all.Done? <==> allDone)
            && (all.Done? ==> all.value == final)
    decreases |edits|
  {
    if edits != [] {
      var first := Apply(text, edits[0], index);
      if first.Done? {
        ListIsOneByOne(first.value, edits[1..], index + 1);
      }
    }
  }

  /** Neighbours that commute may be swapped anywhere in a list. */
  lemma SwapInList(text: string, xs: seq<Edit>, e1: Edit, e2: Edit, ys: seq<Edit>)
    requires e1.oldStr != "" && Borderless(e1.oldStr) && e2.oldStr != "" && Borderless(e2.oldStr)
    requires var before := ApplyAll(text, xs, 1); before.Done? && Disjoint(before.value, e1, e2)
    requires ApplyAll(text, xs + [e1, e2] + ys, 1).Done? && ApplyAll(text, xs + [e2, e1] + ys, 1).Done?
    ensures ApplyAll(text, xs + [e1, e2] + ys, 1) == ApplyAll(text, xs + [e2, e1] + ys, 1)
  {
    hide Disjoint, Borderless;
    var before := ApplyAll(text, xs, 1).value;
    ListInMiddle(text, xs, [e1, e2], ys);
    ListInMiddle(text, xs, [e2, e1], ys);
    EditsCommute(before, e1, e2);
  }

  lemma ListInMiddle(text: string, xs: seq<Edit>, mid: seq<Edit>, ys: seq<Edit>)
    requires ApplyAll(text, xs + mid + ys, 1).Done?
    ensures ApplyAll(text, xs, 1).Done?
    ensures var inner := ApplyAll(ApplyAll(text, xs, 1).value, mid, 1);
            inner.Done? && ApplyAll(text, xs + mid + ys, 1) == ApplyAll(inner.value, ys, 1 + |xs| + |mid|)
  {
    hide ApplyAll;
    assert xs + mid + ys == xs + (mid + ys);
    ApplyAllConcat(text, xs, mid + ys, 1);
    var before := ApplyAll(text, xs, 1).value;
    ApplyAllConcat(before, mid, ys, 1 + |xs|);
    IndexOnlyNames(before, mid, 1 + |xs|, 1);
  }

  /** The index only appears in refusals. */
  lemma {:induction false} IndexOnlyNames(text: string, edits: seq<Edit>, i: nat, j: nat)
    ensures ApplyAll(text, edits, i).Done? <==> ApplyAll(text, edits, j).Done?
    ensures ApplyAll(text, edits, i).Done? ==> ApplyAll(text, edits, i) == ApplyAll(text, edits, j)
    decreases |edits|
  {
    if edits != [] {
      var first := Apply(text, edits[0], i);
      if first.Done? {
        IndexOnlyNames(first.value, edits[1..], i + 1, j + 1);
      }
    }
  }

  /** The empty string is accepted only in an empty file; elsewhere it counts once more than
      there are characters. */
  lemma EmptyOldString(text: string, inserted: string, index: nat)
    ensures Apply(text, Edit("", inserted), index)
            == if text == "" then Done(inserted) else Refused(Ambiguous(index, |text| + 1))
  {
    assert MatchesAt("", "", 0);
    assert ReplaceFirst("", "", inserted) == "" + inserted + "" == inserted;
  }

  // ---- Edits that do not commute ----

  function Repeated(c: char, n: nat): string {
    seq(n, _ => c)
  }

  /** A string of `n + 1` characters without a border. */
  function Marker(d: char, c: char, n: nat): string {
    [d] + Repeated(c, n)
  }

  lemma MarkerIsBorderless(d: char, c: char, n: nat)
    requires d != c
    ensures Borderless(Marker(d, c, n))
  {
    var m := Marker(d, c, n);
    forall b | 1 <= b < |m| ensures !Border(m, b) {
      assert m[..b][0] == d && m[|m| - b..][0] == c;
    }
  }

  /** A text that starts with `y` and has no room for another one. */
  lemma StartsOnce(y: string, suf: string)
    requires y != "" && |suf| < |y|
    ensures Count(y + suf, y) == 1 && Find(y + suf, y, 0) == 0
  {
    assert (y + suf)[0..|y|] == y;
    NoRoomForTwo(y + suf, y);
  }

  lemma MatchAtEnd(pre: string, p: string)
    ensures MatchesAt(pre + p, p, |pre|)
  {
    assert (pre + p)[|pre|..|pre| + |p|] == p;
  }

  lemma NoMatchBefore(pre: string, p: string, j: nat)
    requires p != "" && p[0] !in pre && j < |pre|
    ensures !MatchesAt(pre + p, p, j)
  {
    if MatchesAt(pre + p, p, j) {
      FirstOfMatch(pre + p, p, j);
    }
  }

  lemma FirstOfMatch(s: string, p: string, j: nat)
    requires p != "" && MatchesAt(s, p, j)
    ensures s[j] == p[0]
  {
    assert s[j..j + |p|][0] == s[j];
  }

  /** A text that ends with `p` and holds the first character of `p` nowhere before. */
  lemma EndsOnce(pre: string, p: string)
    requires p != "" && p[0] !in pre
    ensures Count(pre + p, p) == 1 && Find(pre + p, p, 0) == |pre|
  {
    var s := pre + p;
    MatchAtEnd(pre, p);
    FindMeets(s, p, 0);
    forall j | 0 <= j < |pre| ensures !MatchesAt(s, p, j) {
      NoMatchBefore(pre, p, j);
    }
    hide MatchesAt, Find, CountFrom;
    assert Find(s, p, 0) == |pre|;
    NoRoomForTwo(s, p);
  }

  lemma AppliesAtStart(e: Edit, suf: string, index: nat)
    requires e.oldStr != "" && Count(e.oldStr + suf, e.oldStr) == 1 && Find(e.oldStr + suf, e.oldStr, 0) == 0
    ensures Apply(e.oldStr + suf, e, index) == Done(e.newStr + suf)
  {
    assert "" + e.oldStr + suf == e.oldStr + suf && "" + e.newStr + suf == e.newStr + suf;
    ReplaceAt("", e, suf);
  }

  lemma AppliesAtEnd(pre: string, e: Edit, index: nat)
    requires e.oldStr != "" && Count(pre + e.oldStr, e.oldStr) == 1 && Find(pre + e.oldStr, e.oldStr, 0) == |pre|
    ensures Apply(pre + e.oldStr, e, index) == Done(pre + e.newStr)
  {
    assert pre + e.oldStr + "" == pre + e.oldStr && pre + e.newStr + "" == pre + e.newStr;
    ReplaceAt(pre, e, "");
  }

  /** With a border, `p` starts again before its end. */
  lemma BorderOverlaps(p: string, b: int)
    requires Border(p, b)
    ensures p[..|p| - b] + p == p + p[b..]
    ensures Count(p + p[b..], p) == 1 && Find(p + p[b..], p, 0) == 0
  {
    OverlappedCountsOnce(p, b);
    PrefixIsFound(p, p[b..]);
    BorderSplits(p, b);
    hide Find, Count, CountFrom, Border;
    Overlaid(p[..|p| - b], p[..b], p[b..], p);
  }

  lemma BorderSplits(p: string, b: int)
    requires Border(p, b)
    ensures p == p[..|p| - b] + p[..b] && p == p[..b] + p[b..]
  {
  }

  lemma Overlaid(gap: string, border: string, rest: string, p: string)
    requires p == gap + border && p == border + rest
    ensures gap + p == p + rest
  {
    assert gap + (border + rest) == (gap + border) + rest;
  }

  lemma PrefixIsFound(p: string, suf: string)
    ensures Find(p + suf, p, 0) == 0
  {
    assert (p + suf)[0..|p|] == p;
  }

  /** First `y` becomes what makes `p` overlap itself, then `p` is found too early. */
  lemma MarkerFirst(p: string, b: int, y: string, c: char)
    requires Border(p, b) && |y| > |p|
    ensures ApplyAll(y + p, [Edit(y, p[..|p| - b]), Edit(p, [c])], 1) == Done([c] + p[b..])
  {
    var e1, e2 := Edit(y, p[..|p| - b]), Edit(p, [c]);
    PairOfEdits(y + p, e1, e2);
    StartsOnce(y, p);
    AppliesAtStart(e1, p, 1);
    BorderOverlaps(p, b);
    AppliesAtStart(e2, p[b..], 2);
  }

  lemma MarkerLast(p: string, b: int, y: string, c: char)
    requires Border(p, b) && |y| > |p| && p[0] !in y
    ensures ApplyAll(y + p, [Edit(p, [c]), Edit(y, p[..|p| - b])], 1) == Done(p[..|p| - b] + [c])
  {
    var e1, e2 := Edit(y, p[..|p| - b]), Edit(p, [c]);
    PairOfEdits(y + p, e2, e1);
    EndsOnce(y, p);
    AppliesAtEnd(y, e2, 1);
    StartsOnce(y, [c]);
    AppliesAtStart(e1, [c], 2);
  }

  /** The order of the two edits decides. */
  lemma OrderDecides(p: string, b: int, y: string, c: char)
    requires Border(p, b) && |y| > |p| && p[0] !in y && c != p[0]
    ensures var e1, e2 := Edit(y, p[..|p| - b]), Edit(p, [c]);
            && ApplyAll(y + p, [e1, e2], 1) == Done([c] + p[b..])
            && ApplyAll(y + p, [e2, e1], 1) == Done(p[..|p| - b] + [c])
            && [c] + p[b..] != p[..|p| - b] + [c]
            && Disjoint(y + p, e1, e2)
  {
    hide ApplyAll, Find, CountFrom;
    MarkerFirst(p, b, y, c);
    MarkerLast(p, b, y, c);
    StartsOnce(y, p);
    EndsOnce(y, p);
    assert ([c] + p[b..])[0] == c && (p[..|p| - b] + [c])[0] == p[0];
  }

  lemma ThreeCharacters(a: char) returns (d: char, c: char)
    ensures d != a && c != a && d != c
  {
    d := if a == 'x' then 'y' else 'x';
    c := if a == 'z' then 'w' else 'z';
  }

  ghost predicate AlwaysCommutes(p: string) {
    forall text: string, e1: Edit, e2: Edit ::
      && e1.oldStr != "" && Borderless(e1.oldStr) && e2.oldStr == p
      && Disjoint(text, e1, e2)
      && ApplyAll(text, [e1, e2], 1).Done? && ApplyAll(text, [e2, e1], 1).Done?
      ==> ApplyAll(text, [e1, e2], 1) == ApplyAll(text, [e2, e1], 1)
  }

  /** Edits of a string commute with every edit of a borderless string at a disjoint place,
      in every text where both orders are accepted, exactly when the string itself has no
      border. */
  lemma CommutesExactly(p: string)
    requires p != ""
    ensures AlwaysCommutes(p) <==> Borderless(p)
  {
    hide ApplyAll, Disjoint;
    if Borderless(p) {
      forall text: string, e1: Edit, e2: Edit |
        && e1.oldStr != "" && Borderless(e1.oldStr) && e2.oldStr == p
        && Disjoint(text, e1, e2)
        && ApplyAll(text, [e1, e2], 1).Done? && ApplyAll(text, [e2, e1], 1).Done?
        ensures ApplyAll(text, [e1, e2], 1) == ApplyAll(text, [e2, e1], 1)
      {
        EditsCommute(text, e1, e2);
      }
    } else {
      var b :| 1 <= b < |p| && Border(p, b);
      var d, c := ThreeCharacters(p[0]);
      var y := Marker(d, c, |p|);
      MarkerIsBorderless(d, c, |p|);
      OrderDecides(p, b, y, c);
      var e1, e2 := Edit(y, p[..|p| - b]), Edit(p, [c]);
      assert ApplyAll(y + p, [e1, e2], 1) != ApplyAll(y + p, [e2, e1], 1);
    }
  }
}
