/** The string operations of the Go standard library the model rests on:
    `strings.Contains`, `strings.Split`, `strings.Join` and `strings.Compare`. */
module Strings {

  // -------- Substrings --------

  predicate OccursAt(s: string, sub: string, i: int) {
    0 <= i && i + |sub| <= |s| && s[i..i + |sub|] == sub
  }

  predicate Contains(s: string, sub: string) {
    exists i | 0 <= i <= |s| :: OccursAt(s, sub, i)
  }

  // -------- Splitting at a separator --------

  function Split(s: string, sep: char): (parts: seq<string>)
    ensures |parts| >= 1
    ensures forall i | 0 <= i < |parts| :: sep !in parts[i]
  {
    if s == "" then [""]
    else
      var rest := Split(s[1..], sep);
      if s[0] == sep then [""] + rest
      else [[s[0]] + rest[0]] + rest[1..]
  }

  function Join(parts: seq<string>, sep: char): string
    requires |parts| >= 1
  {
    if |parts| == 1 then parts[0]
    else parts[0] + [sep] + Join(parts[1..], sep)
  }

  lemma {:induction false} JoinSplit(s: string, sep: char)
    ensures Join(Split(s, sep), sep) == s
  {
    if s != "" {
      JoinSplit(s[1..], sep);
      var rest := Split(s[1..], sep);
      if s[0] == sep {
        assert ([""] + rest)[1..] == rest;
        assert Join([""] + rest, sep) == "" + [sep] + s[1..];
      } else {
        var parts := [[s[0]] + rest[0]] + rest[1..];
        if |rest| > 1 {
          assert parts[1..] == rest[1..];
          assert Join(parts, sep) == [s[0]] + (rest[0] + [sep] + Join(rest[1..], sep));
        }
      }
    }
  }

  lemma {:induction false} JoinPrefix(p: seq<string>, q: seq<string>, sep: char)
    requires 1 <= |p| && p < q
    ensures Join(p, sep) < Join(q, sep)
  {
    if |p| > 1 {
      JoinPrefix(p[1..], q[1..], sep);
      assert Join(q[1..], sep)[..|Join(p[1..], sep)|] == Join(p[1..], sep);
    }
  }

  /** Splitting what was joined from parts without the separator gives the parts back. */
  lemma {:induction false} SplitJoin(parts: seq<string>, sep: char)
    requires |parts| >= 1 && forall part | part in parts :: sep !in part
    ensures Split(Join(parts, sep), sep) == parts
  {
    if |parts| == 1 {
      SplitWhole(parts[0], sep);
    } else {
      SplitJoin(parts[1..], sep);
      SplitAppend(parts[0], Join(parts[1..], sep), sep);
      SplitWhole(parts[0], sep);
      assert parts[0] + [sep] + Join(parts[1..], sep) == Join(parts, sep);
    }
  }

  lemma {:induction false} SplitWhole(s: string, sep: char)
    requires sep !in s
    ensures Split(s, sep) == [s]
  {
    if s != "" {
      SplitWhole(s[1..], sep);
      assert s[0] in s && [s[0]] + s[1..] == s;
    }
  }

  lemma {:induction false} SplitAppend(a: string, b: string, sep: char)
    ensures Split(a + [sep] + b, sep) == Split(a, sep) + Split(b, sep)
  {
    var s := a + [sep] + b;
    if a == "" {
      assert s[1..] == b;
    } else {
      assert s[1..] == a[1..] + [sep] + b;
      SplitAppend(a[1..], b, sep);
    }
  }

  lemma {:induction false} JoinAppend(p: seq<string>, q: seq<string>, sep: char)
    requires |p| >= 1 && |q| >= 1
    ensures Join(p + q, sep) == Join(p, sep) + [sep] + Join(q, sep)
  {
    if |p| == 1 {
      assert (p + q)[1..] == q;
    } else {
      assert (p + q)[1..] == p[1..] + q;
      JoinAppend(p[1..], q, sep);
    }
  }

  /** What splitting means: the parts hold no separator and spell the text. */
  lemma SplitSpelled(s: string, sep: char, parts: seq<string>)
    ensures Split(s, sep) == parts <==> parts != [] && Join(parts, sep) == s && forall part | part in parts :: sep !in part
  {
    JoinSplit(s, sep);
    if parts != [] && Join(parts, sep) == s && forall part | part in parts :: sep !in part {
      SplitJoin(parts, sep);
    }
  }

  /** The parts of one text begin those of another exactly if the text and a separator begin it. */
  lemma SplitPrefix(a: string, b: string, sep: char)
    ensures Split(a, sep) < Split(b, sep) <==> a + [sep] <= b
  {
    if Split(a, sep) < Split(b, sep) {
      PartsBegin(a, b, sep);
    }
    if a + [sep] <= b {
      var t := b[|a| + 1..];
      assert b == a + [sep] + t;
      SplitAppend(a, t, sep);
    }
  }

  lemma PartsBegin(a: string, b: string, sep: char)
    requires Split(a, sep) < Split(b, sep)
    ensures a + [sep] <= b
  {
    var p, rest := Split(a, sep), Split(b, sep)[|Split(a, sep)|..];
    JoinSplit(a, sep);
    JoinSplit(b, sep);
    assert Split(b, sep) == p + rest;
    JoinAppend(p, rest, sep);
  }

  /** Two separators in a row, or one at the end. */
  ghost predicate Gap(s: string, sep: char) {
    (s != "" && s[|s| - 1] == sep) || exists i :: 0 <= i < |s| - 1 && s[i] == sep && s[i + 1] == sep
  }

  /** A part is empty exactly if the text is, or starts with the separator, or has a gap. */
  lemma EmptyPart(s: string, sep: char)
    ensures "" in Split(s, sep) <==> s == "" || s[0] == sep || Gap(s, sep)
  {
    EmptyLaterPart(s, sep);
    var parts := Split(s, sep);
    assert parts == [parts[0]] + parts[1..];
  }

  lemma {:induction false} EmptyLaterPart(s: string, sep: char)
    ensures "" in Split(s, sep)[1..] <==> Gap(s, sep)
  {
    if s != "" {
      EmptyLaterPart(s[1..], sep);
      var t, rest := s[1..], Split(s[1..], sep);
      assert rest == [rest[0]] + rest[1..];
      assert t != "" ==> t[0] == s[1] && t[|t| - 1] == s[|s| - 1];
      if s[0] == sep {
        assert Split(s, sep)[1..] == rest;
      } else {
        assert Split(s, sep)[1..] == rest[1..];
      }
      GapStep(s, sep);
    }
  }

  lemma GapStep(s: string, sep: char)
    requires s != ""
    ensures Gap(s, sep) <==> (s[0] == sep && (|s| == 1 || s[1] == sep)) || Gap(s[1..], sep)
  {
    var t := s[1..];
    if Gap(t, sep) && !(t[|t| - 1] == sep) {
      var i :| 0 <= i < |t| - 1 && t[i] == sep && t[i + 1] == sep;
      assert s[i + 1] == sep && s[i + 2] == sep;
    }
    if exists i :: 0 < i < |s| - 1 && s[i] == sep && s[i + 1] == sep {
      var i :| 0 < i < |s| - 1 && s[i] == sep && s[i + 1] == sep;
      assert t[i - 1] == sep && t[i] == sep;
    }
  }

  // -------- Lexicographic order --------

  /** `strings.Compare`: negative, zero or positive. */
  function Compare(a: string, b: string): (c: int)
    ensures -1 <= c <= 1
  {
    if a == "" && b == "" then 0
    else if a == "" then -1
    else if b == "" then 1
    else if a[0] < b[0] then -1
    else if a[0] > b[0] then 1
    else Compare(a[1..], b[1..])
  }

  lemma {:induction false} CompareZero(a: string, b: string)
    ensures Compare(a, b) == 0 <==> a == b
  {
    if a != "" && b != "" && a[0] == b[0] {
      CompareZero(a[1..], b[1..]);
      assert a == [a[0]] + a[1..] && b == [b[0]] + b[1..];
    }
  }

  lemma {:induction false} CompareAntisymmetric(a: string, b: string)
    ensures Compare(b, a) == -Compare(a, b)
  {
    if a != "" && b != "" && a[0] == b[0] {
      CompareAntisymmetric(a[1..], b[1..]);
    }
  }

  lemma {:induction false} CompareTransitive(a: string, b: string, c: string)
    requires Compare(a, b) <= 0 && Compare(b, c) <= 0
    ensures Compare(a, c) <= 0
    ensures Compare(a, b) < 0 || Compare(b, c) < 0 ==> Compare(a, c) < 0
  {
    if a != "" && b != "" && c != "" && a[0] == b[0] == c[0] {
      CompareTransitive(a[1..], b[1..], c[1..]);
    }
  }

  /** A proper prefix sorts strictly first. */
  lemma {:induction false} CompareProperPrefix(a: string, b: string)
    requires a < b
    ensures Compare(a, b) == -1
  {
    if a != "" {
      assert a[0] == b[0];
      CompareProperPrefix(a[1..], b[1..]);
    }
  }

  /** The first difference decides. */
  lemma {:induction false} FirstDifference(lead: string, a: string, b: string)
    requires a != "" && b != "" && a[0] < b[0]
    ensures Compare(lead + a, lead + b) == -1
  {
    if lead == "" {
      assert lead + a == a && lead + b == b;
    } else {
      assert (lead + a)[1..] == lead[1..] + a && (lead + b)[1..] == lead[1..] + b;
      FirstDifference(lead[1..], a, b);
    }
  }
}
