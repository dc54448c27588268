/** The string operations of Python that the model relies on. */
module Text {

  /** `s[:n]` for n >= 0. */
  function Take<T>(s: seq<T>, n: nat): (r: seq<T>)
    ensures |r| <= n && |r| <= |s|
  {
    if |s| <= n then s else s[..n]
  }

  lemma FrontAndLast<T>(s: seq<T>)
    requires s != []
    ensures s == s[..|s| - 1] + [s[|s| - 1]]
  {
  }

  lemma FirstOfConcat<T>(a: seq<T>, b: seq<T>)
    requires a != []
    ensures (a + b)[0] == a[0] && (a + b)[1..] == a[1..] + b
  {
  }

  lemma Associates<T>(a: seq<T>, b: seq<T>, c: seq<T>)
    ensures a + (b + c) == a + b + c
  {
  }

  /** `sep.join(parts)`. */
  function Join(sep: string, parts: seq<string>): string {
    if parts == [] then ""
    else if |parts| == 1 then parts[0]
    else Join(sep, parts[..|parts| - 1]) + sep + parts[|parts| - 1]
  }

  /** `str(n)` for n >= 0. */
  function Decimal(n: nat): (s: string)
    ensures |s| >= 1
  {
    var digit := ('0' as int + n % 10) as char;
    if n < 10 then [digit] else Decimal(n / 10) + [digit]
  }

  /** `s.split("\n")`. */
  function Lines(s: string): (r: seq<string>)
    ensures |r| >= 1
  {
    if s == "" then [""]
    else
      var rest := Lines(s[..|s| - 1]);
      var c := s[|s| - 1];
      if c == '\n' then rest + [""] else rest[..|rest| - 1] + [rest[|rest| - 1] + [c]]
  }

  predicate OneLine(s: string) {
    '\n' !in s
  }

  /** `str.isspace` of one character. */
  predicate IsSpace(c: char) {
    || '\t' <= c <= '\r' || '\U{1C}' <= c <= ' '
    || c == '\U{85}' || c == '\U{A0}' || c == '\U{1680}'
    || '\U{2000}' <= c <= '\U{200A}'
    || c == '\U{2028}' || c == '\U{2029}' || c == '\U{202F}' || c == '\U{205F}' || c == '\U{3000}'
  }

  /** The truth value of `s.strip()`. */
  predicate HasInk(s: string) {
    exists i :: 0 <= i < |s| && !IsSpace(s[i])
  }

  // ---- Joining ----

  /** Where part `i` begins: behind the parts before it and a separator for each of them. */
  function Offset(sep: string, parts: seq<string>, i: nat): nat
    requires i <= |parts|
  {
    if i == 0 then 0 else Offset(sep, parts, i - 1) + |parts[i - 1]| + |sep|
  }

  lemma {:induction false} OffsetOfPrefix(sep: string, parts: seq<string>, k: nat, i: nat)
    requires i <= k <= |parts|
    ensures Offset(sep, parts[..k], i) == Offset(sep, parts, i)
  {
    if i > 0 {
      OffsetOfPrefix(sep, parts, k, i - 1);
    }
  }

  lemma {:induction false} OffsetGrows(sep: string, parts: seq<string>, i: nat, j: nat)
    requires i < j <= |parts|
    ensures Offset(sep, parts, i) + |parts[i]| + |sep| <= Offset(sep, parts, j)
  {
    if i < j - 1 {
      OffsetGrows(sep, parts, i, j - 1);
    }
  }

  lemma JoinNext(sep: string, front: seq<string>, last: string)
    requires front != []
    ensures Join(sep, front + [last]) == Join(sep, front) + sep + last
  {
    assert (front + [last])[..|front|] == front;
  }

  lemma {:induction false} JoinIsLong(sep: string, parts: seq<string>)
    requires parts != []
    ensures |Join(sep, parts)| + |sep| == Offset(sep, parts, |parts|)
  {
    if |parts| > 1 {
      var front := parts[..|parts| - 1];
      JoinIsLong(sep, front);
      OffsetOfPrefix(sep, parts, |front|, |front|);
    }
  }

  /** A joined text holds each part at its place, with the separator behind all but the
      last, and nothing else. */
  lemma {:induction false} JoinHolds(sep: string, parts: seq<string>, i: nat)
    requires i < |parts|
    ensures var text, o := Join(sep, parts), Offset(sep, parts, i);
            var end := o + |parts[i]|;
            && end <= |text|
            && text[o..end] == parts[i]
            && (i + 1 == |parts| ==> end == |text|)
            && (i + 1 < |parts| ==> end + |sep| <= |text| && text[end..end + |sep|] == sep)
  {
    if |parts| == 1 {
      assert Offset(sep, parts, 0) == 0;
    } else {
      var front, last := parts[..|parts| - 1], parts[|parts| - 1];
      JoinIsLong(sep, front);
      OffsetOfPrefix(sep, parts, |front|, |front|);
      OffsetOfPrefix(sep, parts, |front|, i);
      hide Join, Offset;
      FrontAndLast(parts);
      JoinNext(sep, front, last);
      LastPart(Join(sep, front), sep, last);
      if i < |front| {
        JoinHolds(sep, front, i);
        HoldsInLonger(Join(sep, front), sep, last, Offset(sep, front, i), Offset(sep, front, i) + |front[i]|);
      }
    }
  }

  lemma LastPart(text: string, sep: string, last: string)
    ensures var o := |text| + |sep|;
            |text + sep + last| == o + |last| && (text + sep + last)[o..o + |last|] == last
  {
  }

  lemma HoldsInLonger(text: string, sep: string, last: string, from: nat, end: nat)
    requires from <= end <= |text|
    ensures (text + sep + last)[from..end] == text[from..end]
    ensures end == |text| ==> (text + sep + last)[end..end + |sep|] == sep
    ensures end + |sep| <= |text| ==> (text + sep + last)[end..end + |sep|] == text[end..end + |sep|]
  {
  }

  // ---- Numbers ----

  predicate IsNumeral(s: string) {
    s != "" && forall i :: 0 <= i < |s| ==> '0' <= s[i] <= '9'
  }

  /** The number that a numeral stands for. */
  function NumeralValue(s: string): nat
    requires forall i :: 0 <= i < |s| ==> '0' <= s[i] <= '9'
  {
    if s == "" then 0 else 10 * NumeralValue(s[..|s| - 1]) + (s[|s| - 1] as int - '0' as int)
  }

  /** A printed number reads as that number, without leading zeros. */
  lemma {:induction false} DecimalReads(n: nat)
    ensures IsNumeral(Decimal(n)) && NumeralValue(Decimal(n)) == n
    ensures |Decimal(n)| > 1 ==> Decimal(n)[0] != '0'
  {
    var s := Decimal(n);
    if n >= 10 {
      DecimalReads(n / 10);
      assert s[..|s| - 1] == Decimal(n / 10);
    } else {
      assert s[..0] == "";
    }
  }

  // ---- Blank texts ----

  /** Printable characters of ASCII are ink, its white space is none. */
  lemma InkOfAscii(s: string)
    ensures (exists i :: 0 <= i < |s| && '!' <= s[i] <= '~') ==> HasInk(s)
    ensures (forall i :: 0 <= i < |s| ==> s[i] in " \t\n\r") ==> !HasInk(s)
  {
    if i :| 0 <= i < |s| && '!' <= s[i] <= '~' {
      assert !IsSpace(s[i]);
    }
  }

  /** Joining lengths: the parts and the separators between them. */
  lemma {:induction false} JoinLength(sep: string, parts: seq<string>, bound: nat)
    requires forall i :: 0 <= i < |parts| ==> |parts[i]| <= bound
    ensures |Join(sep, parts)| <= |parts| * (bound + |sep|)
  {
    if |parts| > 1 {
      JoinLength(sep, parts[..|parts| - 1], bound);
    }
  }

  lemma LinesOfNext(front: string, c: char)
    requires c != '\n' && Lines(front) == [front]
    ensures Lines(front + [c]) == [front + [c]]
  {
    assert (front + [c])[..|front + [c]| - 1] == front;
    assert [front][..0] == [];
  }

  lemma {:induction false} LinesOfOneLine(s: string)
    requires OneLine(s)
    ensures Lines(s) == [s]
  {
    if s != "" {
      var front, c := s[..|s| - 1], s[|s| - 1];
      LinesOfOneLine(front);
      assert c in s && front + [c] == s;
      LinesOfNext(front, c);
    }
  }

  lemma {:induction false} LinesOfAppend(a: string, b: string)
    requires OneLine(b)
    ensures Lines(a + "\n" + b) == Lines(a) + [b]
  {
    if b == "" {
      assert (a + "\n" + b)[..|a + "\n" + b| - 1] == a;
    } else {
      var front := b[..|b| - 1];
      assert (a + "\n" + b)[..|a + "\n" + b| - 1] == a + "\n" + front;
      LinesOfAppend(a, front);
      assert front + [b[|b| - 1]] == b;
    }
  }

  lemma {:induction false} LinesAreOneLine(s: string)
    ensures forall i :: 0 <= i < |Lines(s)| ==> OneLine(Lines(s)[i])
  {
    if s != "" {
      LinesAreOneLine(s[..|s| - 1]);
    }
  }

  /** Splitting undoes joining by newlines exactly when no part holds a newline. */
  lemma {:induction false} LinesUndoJoin(parts: seq<string>)
    requires parts != []
    ensures Lines(Join("\n", parts)) == parts <==> forall i :: 0 <= i < |parts| ==> OneLine(parts[i])
  {
    LinesAreOneLine(Join("\n", parts));
    if forall i :: 0 <= i < |parts| ==> OneLine(parts[i]) {
      LinesOfJoin(parts);
    }
  }

  lemma {:induction false} LinesOfJoin(parts: seq<string>)
    requires parts != [] && forall i :: 0 <= i < |parts| ==> OneLine(parts[i])
    ensures Lines(Join("\n", parts)) == parts
  {
    if |parts| == 1 {
      LinesOfOneLine(parts[0]);
    } else {
      var front, last := parts[..|parts| - 1], parts[|parts| - 1];
      assert forall i :: 0 <= i < |front| ==> front[i] == parts[i];
      LinesOfJoin(front);
      calc {
        Lines(Join("\n", parts));
        Lines(Join("\n", front) + "\n" + last);
        { LinesOfAppend(Join("\n", front), last); }
        Lines(Join("\n", front)) + [last];
        front + [last];
        parts;
      }
    }
  }
}
