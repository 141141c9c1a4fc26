/** The order on release tags and the list of recent ones (binaries.go:387-422). */
module Versions {
  import opened Strings

  // -------- The order --------

  function TrimV(s: string): string {
    if s != "" && s[0] == 'v' then s[1..] else s
  }

  function Fields(version: string): (fields: seq<string>)
    ensures |fields| >= 1
  {
    Split(TrimV(version), '.')
  }

  /** One field against another: the longer is greater, otherwise `strings.Compare`. */
  function CompareField(a: string, b: string): int {
    if |a| != |b| then |a| - |b| else Compare(a, b)
  }

  /** What the scan computes on the two lists of fields. */
  function CompareFields(a: seq<string>, b: seq<string>): int {
    if a == [] || b == [] then |a| - |b|
    else if a[0] != b[0] then CompareField(a[0], b[0])
    else CompareFields(a[1..], b[1..])
  }

  function Order(a: string, b: string): int { CompareFields(Fields(a), Fields(b)) }

  /** `compareVersions`: the scan over the fields, with its loop index. */
  method CompareVersions(a: string, b: string) returns (c: int)
    ensures c == Order(a, b)
  {
    var fieldsA, fieldsB := Fields(a), Fields(b);
    var i := 0;
    while i < |fieldsA| && i < |fieldsB|
      invariant 0 <= i <= |fieldsA| && i <= |fieldsB|
      invariant CompareFields(fieldsA, fieldsB) == CompareFields(fieldsA[i..], fieldsB[i..])
    {
      if fieldsA[i] != fieldsB[i] {
        if |fieldsA[i]| != |fieldsB[i]| {
          return |fieldsA[i]| - |fieldsB[i]|;
        }
        return Compare(fieldsA[i], fieldsB[i]);
      }
      i := i + 1;
    }
    return |fieldsA| - |fieldsB|;
  }

  // -------- A total preorder --------

  lemma CompareFieldLaws(a: string, b: string)
    ensures CompareField(b, a) == -CompareField(a, b)
    ensures CompareField(a, b) == 0 <==> a == b
  {
    CompareAntisymmetric(a, b);
    CompareZero(a, b);
  }

  lemma CompareFieldTransitive(a: string, b: string, c: string)
    requires CompareField(a, b) <= 0 && CompareField(b, c) <= 0
    ensures CompareField(a, c) <= 0
    ensures CompareField(a, c) == 0 ==> a == b == c
  {
    if |a| == |b| == |c| {
      CompareTransitive(a, b, c);
    }
    CompareFieldLaws(a, b);
    CompareFieldLaws(b, c);
  }

  lemma {:induction false} CompareFieldsLaws(a: seq<string>, b: seq<string>)
    ensures CompareFields(b, a) == -CompareFields(a, b)
    ensures CompareFields(a, b) == 0 <==> a == b
  {
    if a != [] && b != [] {
      CompareFieldLaws(a[0], b[0]);
      CompareFieldsLaws(a[1..], b[1..]);
      assert a == [a[0]] + a[1..] && b == [b[0]] + b[1..];
    }
  }

  lemma {:induction false} CompareFieldsTransitive(a: seq<string>, b: seq<string>, c: seq<string>)
    requires CompareFields(a, b) <= 0 && CompareFields(b, c) <= 0
    ensures CompareFields(a, c) <= 0
  {
    if a != [] && b != [] && c != [] {
      if a[0] == b[0] == c[0] {
        CompareFieldsTransitive(a[1..], b[1..], c[1..]);
      } else {
        CompareFieldLaws(a[0], b[0]);
        CompareFieldLaws(b[0], c[0]);
        CompareFieldTransitive(a[0], b[0], c[0]);
      }
    }
  }

  /** `compareVersions` is antisymmetric in sign, transitive, and zero exactly on versions that
      are equal up to a leading "v". */
  lemma OrderIsTotalPreorder(a: string, b: string, c: string)
    ensures Order(b, a) == -Order(a, b)
    ensures Order(a, b) <= 0 && Order(b, c) <= 0 ==> Order(a, c) <= 0
    ensures Order(a, b) == 0 <==> TrimV(a) == TrimV(b)
  {
    CompareFieldsLaws(Fields(a), Fields(b));
    if Order(a, b) <= 0 && Order(b, c) <= 0 {
      CompareFieldsTransitive(Fields(a), Fields(b), Fields(c));
    }
    JoinSplit(TrimV(a), '.');
    JoinSplit(TrimV(b), '.');
  }

  // -------- Agreement with numbers --------

  predicate Digit(c: char) { '0' <= c <= '9' }

  /** A decimal without leading zeros. */
  predicate Decimal(s: string) {
    s != "" && Digits(s) && (|s| > 1 ==> s[0] != '0')
  }

  function Pow10(n: nat): (p: nat)
    ensures p >= 1
  {
    if n == 0 then 1 else 10 * Pow10(n - 1)
  }

  predicate Digits(s: string) { forall i | 0 <= i < |s| :: Digit(s[i]) }

  function DigitValue(c: char): (d: nat)
    requires Digit(c)
    ensures d <= 9 && (d == 0 <==> c == '0')
  {
    c as int - '0' as int
  }

  /** The number a string of digits denotes. */
  function Numeral(s: string): nat
    requires Digits(s)
  {
    if s == "" then 0 else DigitValue(s[0]) * Pow10(|s| - 1) + Numeral(s[1..])
  }

  lemma Times(d: nat, e: nat, p: nat)
    requires d <= e
    ensures d * p <= e * p
    ensures d < e ==> d * p + p <= e * p
  {
    if d < e {
      assert d * p + p == (d + 1) * p <= e * p;
    }
  }

  lemma {:induction false} NumeralBounds(s: string)
    requires Digits(s)
    ensures Numeral(s) < Pow10(|s|)
    ensures s != "" && s[0] != '0' ==> Pow10(|s| - 1) <= Numeral(s)
  {
    if s != "" {
      NumeralBounds(s[1..]);
      Times(DigitValue(s[0]), 9, Pow10(|s| - 1));
      if s[0] != '0' {
        Times(1, DigitValue(s[0]), Pow10(|s| - 1));
      }
    }
  }

  lemma {:induction false} Pow10Monotone(m: nat, n: nat)
    requires m <= n
    ensures Pow10(m) <= Pow10(n)
  {
    if m < n {
      Pow10Monotone(m, n - 1);
    }
  }

  lemma {:induction false} SameLengthNumeral(a: string, b: string)
    requires |a| == |b| && Digits(a) && Digits(b)
    ensures Compare(a, b) < 0 <==> Numeral(a) < Numeral(b)
    ensures Compare(a, b) == 0 <==> Numeral(a) == Numeral(b)
  {
    if a != "" {
      NumeralBounds(a[1..]);
      NumeralBounds(b[1..]);
      if a[0] == b[0] {
        SameLengthNumeral(a[1..], b[1..]);
      } else if a[0] < b[0] {
        Times(DigitValue(a[0]), DigitValue(b[0]), Pow10(|a| - 1));
      } else {
        Times(DigitValue(b[0]), DigitValue(a[0]), Pow10(|a| - 1));
      }
    }
  }

  lemma FieldIsNumeric(a: string, b: string)
    requires Decimal(a) && Decimal(b)
    ensures CompareField(a, b) < 0 <==> Numeral(a) < Numeral(b)
    ensures a == b <==> Numeral(a) == Numeral(b)
  {
    if |a| == |b| {
      SameLengthNumeral(a, b);
      CompareZero(a, b);
    } else {
      LongerIsGreater(a, b);
      LongerIsGreater(b, a);
    }
  }

  lemma LongerIsGreater(a: string, b: string)
    requires Decimal(a) && Decimal(b)
    ensures |a| < |b| ==> Numeral(a) < Numeral(b)
  {
    if |a| < |b| {
      NumeralBounds(a);
      NumeralBounds(b);
      Pow10Monotone(|a|, |b| - 1);
    }
  }

  /** Lexicographic order on tuples of numbers, a shorter tuple first among equal prefixes. */
  ghost predicate TupleLess(a: seq<nat>, b: seq<nat>) {
    if b == [] then false
    else if a == [] then true
    else a[0] < b[0] || (a[0] == b[0] && TupleLess(a[1..], b[1..]))
  }

  ghost predicate Numeric(fields: seq<string>) { forall i | 0 <= i < |fields| :: Decimal(fields[i]) }

  ghost function Numerals(fields: seq<string>): seq<nat>
    requires Numeric(fields)
  {
    if fields == [] then [] else [Numeral(fields[0])] + Numerals(fields[1..])
  }

  lemma {:induction false} FieldsAreNumeric(a: seq<string>, b: seq<string>)
    requires Numeric(a) && Numeric(b)
    ensures CompareFields(a, b) < 0 <==> TupleLess(Numerals(a), Numerals(b))
  {
    if a != [] && b != [] {
      FieldIsNumeric(a[0], b[0]);
      FieldsAreNumeric(a[1..], b[1..]);
    }
  }

  /** On released versions the order is the numeric precedence of section 11 of Semantic
      Versioning 2.0.0. */
  lemma OrderIsNumeric(a: string, b: string)
    requires Numeric(Fields(a)) && Numeric(Fields(b))
    ensures Order(a, b) < 0 <==> TupleLess(Numerals(Fields(a)), Numerals(Fields(b)))
  {
    FieldsAreNumeric(Fields(a), Fields(b));
  }

  // -------- What that means for tags as they are written --------

  /** A number in decimal, without leading zeros. */
  function Written(n: nat): (s: string)
    ensures Decimal(s)
  {
    if n < 10 then [Figure(n)] else Written(n / 10) + [Figure(n % 10)]
  }

  function Figure(d: nat): (c: char)
    requires d < 10
    ensures Digit(c) && DigitValue(c) == d
  {
    '0' + d as char
  }

  lemma {:induction false} NumeralAppend(s: string, c: char)
    requires Digits(s) && Digit(c)
    ensures Digits(s + [c]) && Numeral(s + [c]) == 10 * Numeral(s) + DigitValue(c)
  {
    if s == "" {
      assert s + [c] == [c];
    } else {
      assert (s + [c])[1..] == s[1..] + [c];
      NumeralAppend(s[1..], c);
      Tenfold(DigitValue(s[0]), |s| - 1);
    }
  }

  lemma Tenfold(d: nat, n: nat)
    ensures d * Pow10(n + 1) == 10 * (d * Pow10(n))
  {
  }

  lemma {:induction false} WrittenDenotes(n: nat)
    ensures Numeral(Written(n)) == n
  {
    if n >= 10 {
      WrittenDenotes(n / 10);
      NumeralAppend(Written(n / 10), Figure(n % 10));
    }
  }

  function WrittenAll(a: seq<nat>): (fields: seq<string>)
    ensures |fields| == |a| && forall i | 0 <= i < |a| :: fields[i] == Written(a[i])
  {
    if a == [] then [] else [Written(a[0])] + WrittenAll(a[1..])
  }

  /** A release as it is tagged, with or without the "v". */
  function Tag(v: bool, a: seq<nat>): string
    requires a != []
  {
    (if v then "v" else "") + Join(WrittenAll(a), '.')
  }

  lemma TagFields(v: bool, a: seq<nat>)
    requires a != []
    ensures Fields(Tag(v, a)) == WrittenAll(a)
  {
    var fields := WrittenAll(a);
    forall field | field in fields ensures '.' !in field {
      assert Decimal(field);
    }
    SplitJoin(fields, '.');
    StartsWithDigit(fields);
    if v {
      assert Tag(v, a)[1..] == Join(fields, '.');
    } else {
      assert Tag(v, a) == Join(fields, '.');
    }
  }

  lemma StartsWithDigit(fields: seq<string>)
    requires fields != [] && Decimal(fields[0])
    ensures Join(fields, '.') != "" && Digit(Join(fields, '.')[0])
  {
  }

  /** Releases are in the order of their numbers, so v8.5.10 comes before v8.10.0. */
  lemma ReleasesInNumericOrder(v: bool, a: seq<nat>, w: bool, b: seq<nat>)
    requires a != [] && b != []
    ensures Order(Tag(v, a), Tag(w, b)) < 0 <==> TupleLess(a, b)
    ensures Order(Tag(v, a), Tag(w, b)) == 0 <==> a == b
  {
    TagFields(v, a);
    TagFields(w, b);
    NumeralsWritten(a);
    NumeralsWritten(b);
    OrderIsNumeric(Tag(v, a), Tag(w, b));
    CompareFieldsLaws(WrittenAll(a), WrittenAll(b));
  }

  lemma {:induction false} NumeralsWritten(a: seq<nat>)
    ensures Numeric(WrittenAll(a)) && Numerals(WrittenAll(a)) == a
  {
    if a != [] {
      WrittenDenotes(a[0]);
      NumeralsWritten(a[1..]);
      assert WrittenAll(a)[1..] == WrittenAll(a[1..]);
    }
  }

  /** The versions agree up to some field; there one's is shorter, or as long and smaller at the
      first character in which they differ. */
  ghost predicate SmallerAt(a: seq<string>, b: seq<string>, k: nat, j: nat) {
    && k < |a| && k < |b| && a[..k] == b[..k]
    && (|a[k]| < |b[k]| || (|a[k]| == |b[k]| && j < |a[k]| && a[k][..j] == b[k][..j] && a[k][j] < b[k][j]))
  }

  /** Any other versions too are ordered by the first field in which they differ: a longer field is
      greater, fields of one length are compared as text, and a version comes before its
      extensions. */
  lemma FirstDifferentField(v: bool, a: seq<string>, w: bool, b: seq<string>, k: nat, j: nat)
    requires a != [] && b != [] && (forall x | x in a :: '.' !in x) && (forall x | x in b :: '.' !in x)
    requires (!v ==> a[0] == "" || a[0][0] != 'v') && (!w ==> b[0] == "" || b[0][0] != 'v')
    requires a < b || SmallerAt(a, b, k, j)
    ensures Order((if v then "v" else "") + Join(a, '.'), (if w then "v" else "") + Join(b, '.')) < 0
  {
    FieldsOfJoin(v, a);
    FieldsOfJoin(w, b);
    if a < b {
      PrefixFirst(a, b);
    } else {
      FieldDecides(a, b, k, j);
    }
  }

  lemma FieldsOfJoin(v: bool, a: seq<string>)
    requires a != [] && (forall x | x in a :: '.' !in x) && (!v ==> a[0] == "" || a[0][0] != 'v')
    ensures Fields((if v then "v" else "") + Join(a, '.')) == a
  {
    SplitJoin(a, '.');
    if v {
      assert ("v" + Join(a, '.'))[1..] == Join(a, '.');
    } else {
      assert "" + Join(a, '.') == Join(a, '.');
    }
  }

  lemma {:induction false} PrefixFirst(a: seq<string>, b: seq<string>)
    requires a < b
    ensures CompareFields(a, b) < 0
  {
    if a != [] {
      assert a[0] == b[0] && a[1..] < b[1..];
      PrefixFirst(a[1..], b[1..]);
    }
  }

  lemma {:induction false} FieldDecides(a: seq<string>, b: seq<string>, k: nat, j: nat)
    requires SmallerAt(a, b, k, j)
    ensures CompareFields(a, b) < 0
  {
    if k > 0 {
      assert a[0] == a[..k][0] == b[..k][0] == b[0];
      assert a[1..][..k - 1] == a[..k][1..] && b[1..][..k - 1] == b[..k][1..];
      FieldDecides(a[1..], b[1..], k - 1, j);
    } else if |a[0]| == |b[0]| {
      FirstDifference(a[0][..j], a[0][j..], b[0][j..]);
      assert a[0] == a[0][..j] + a[0][j..] && b[0] == a[0][..j] + b[0][j..];
    }
  }

  // -------- The recent releases --------

  predicate Stable(version: string) { '-' !in version }

  ghost predicate Ascending(versions: seq<string>) {
    forall i, j | 0 <= i <= j < |versions| :: Order(versions[i], versions[j]) <= 0
  }

  /** `slices.SortFunc` with `compareVersions`. */
  method SortVersions(versions: seq<string>) returns (sorted: seq<string>)
    ensures multiset(sorted) == multiset(versions) && Ascending(sorted)
  {
    sorted := [];
    for n := 0 to |versions|
      invariant multiset(sorted) == multiset(versions[..n]) && Ascending(sorted)
    {
      assert versions[..n + 1] == versions[..n] + [versions[n]];
      sorted := Insert(sorted, versions[n]);
    }
    assert versions[..|versions|] == versions;
  }

  method Insert(sorted: seq<string>, version: string) returns (r: seq<string>)
    requires Ascending(sorted)
    ensures multiset(r) == multiset(sorted) + multiset{version} && Ascending(r)
  {
    var k := 0;
    while k < |sorted| && Order(sorted[k], version) <= 0
      invariant 0 <= k <= |sorted|
      invariant forall i | 0 <= i < k :: Order(sorted[i], version) <= 0
    {
      k := k + 1;
    }
    r := sorted[..k] + [version] + sorted[k..];
    assert sorted == sorted[..k] + sorted[k..];
    InsertedAscends(sorted, version, k);
  }

  lemma InsertedAscends(sorted: seq<string>, version: string, k: nat)
    requires Ascending(sorted) && k <= |sorted|
    requires forall i | 0 <= i < k :: Order(sorted[i], version) <= 0
    requires k < |sorted| ==> Order(sorted[k], version) > 0
    ensures Ascending(sorted[..k] + [version] + sorted[k..])
  {
    var r := sorted[..k] + [version] + sorted[k..];
    forall i, j | 0 <= i <= j < |r| ensures Order(r[i], r[j]) <= 0 {
      if i == j {
        CompareFieldsLaws(Fields(r[i]), Fields(r[i]));
      } else if i == k {
        CompareFieldsLaws(Fields(sorted[k]), Fields(version));
        OrderIsTotalPreorder(version, sorted[k], sorted[j - 1]);
      }
    }
  }

  lemma NoDuplicates(s: seq<string>, i: int, j: int)
    requires 0 <= i < j < |s| && forall v :: multiset(s)[v] <= 1
    ensures s[i] != s[j]
  {
    assert s == s[..j] + s[j..] && s[i] in s[..j] && s[j] in s[j..];
    assert multiset(s) == multiset(s[..j]) + multiset(s[j..]);
    assert multiset(s[..j])[s[i]] >= 1 && multiset(s[j..])[s[j]] >= 1;
    assert multiset(s)[s[j]] == multiset(s[..j])[s[j]] + multiset(s[j..])[s[j]];
  }

  /** What sorting the members of a set gives: each of them once. */
  lemma SortedSet(sorted: seq<string>, all: set<string>)
    requires multiset(sorted) == multiset(all)
    ensures |sorted| == |all|
    ensures forall v :: v in sorted <==> v in all
    ensures forall i, j | 0 <= i < j < |sorted| :: sorted[i] != sorted[j]
  {
    assert |sorted| == |multiset(sorted)|;
    forall v ensures v in sorted <==> v in all {
      assert v in sorted <==> v in multiset(sorted);
    }
    forall i, j | 0 <= i < j < |sorted| ensures sorted[i] != sorted[j] {
      NoDuplicates(sorted, i, j);
    }
  }

  /** The last eight of an ascending sequence without repetition. */
  lemma LastEight(sorted: seq<string>, recent: seq<string>)
    requires Ascending(sorted) && forall i, j | 0 <= i < j < |sorted| :: sorted[i] != sorted[j]
    requires recent == if |sorted| > 8 then sorted[|sorted| - 8..] else sorted
    ensures Ascending(recent) && |recent| == if |sorted| < 8 then |sorted| else 8
    ensures forall v | v in recent :: v in sorted
    ensures forall i, j | 0 <= i < j < |recent| :: recent[i] != recent[j]
    ensures forall v, w | v in sorted && v !in recent && w in recent :: Order(v, w) <= 0
  {
    if |sorted| > 8 {
      forall v, w | v in sorted && v !in recent && w in recent ensures Order(v, w) <= 0 {
        CutBelow(sorted, |sorted| - 8, v, w);
      }
    }
  }

  lemma CutBelow(sorted: seq<string>, cut: nat, v: string, w: string)
    requires Ascending(sorted) && cut <= |sorted|
    requires v in sorted && v !in sorted[cut..] && w in sorted[cut..]
    ensures Order(v, w) <= 0
  {
    assert sorted == sorted[..cut] + sorted[cut..];
    var i :| 0 <= i < cut && sorted[..cut][i] == v;
    var j :| 0 <= j < |sorted| - cut && sorted[cut..][j] == w;
    assert sorted[i] == v && sorted[cut + j] == w;
  }

  /** `recentVersions`: the stable versions in ascending order, cut to the last eight. */
  method RecentVersions(platforms: set<string>) returns (recent: seq<string>)
    ensures Ascending(recent)
    ensures forall v | v in recent :: v in platforms && '-' !in v
    ensures forall i, j | 0 <= i < j < |recent| :: recent[i] != recent[j]
    ensures var stable := set v | v in platforms && '-' !in v;
            |recent| == if |stable| < 8 then |stable| else 8
    ensures forall v, w | v in platforms && '-' !in v && v !in recent && w in recent :: Order(v, w) <= 0
  {
    var stable: seq<string> := [];
    var rest := platforms;
    while rest != {}
      invariant rest <= platforms
      invariant multiset(stable) == multiset(set v | v in platforms - rest && Stable(v))
      decreases rest
    {
      var version :| version in rest;
      ghost var before, after := set v | v in platforms - rest && Stable(v), set v | v in platforms - (rest - {version}) && Stable(v);
      assert after == if Stable(version) then before + {version} else before;
      if Stable(version) {
        stable := stable + [version];
      }
      rest := rest - {version};
    }
    var sorted := SortVersions(stable);
    ghost var all := set v | v in platforms && Stable(v);
    assert platforms - rest == platforms;
    SortedSet(sorted, all);
    recent := sorted;
    if |recent| > 8 {
      recent := recent[|recent| - 8..];
    }
    LastEight(sorted, recent);
    assert all == set v | v in platforms && '-' !in v;
  }
}
