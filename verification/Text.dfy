/**
 * Strings as the scripts use them: trimming, case folding, splitting and joining on a separator,
 * and the default sort. Letters and blanks are the ASCII ones.
 */
module Text {

  predicate IsBlank(c: char) {
    c == ' ' || c == '\t' || c == '\n' || c == '\r' || c == '\U{000B}' || c == '\U{000C}'
  }

  function LowerChar(c: char): char {
    if 'A' <= c <= 'Z' then c - 'A' + 'a' else c
  }

  function Lower(s: string): (r: string)
    ensures |r| == |s|
    ensures forall i | 0 <= i < |s| :: r[i] == LowerChar(s[i])
  {
    seq(|s|, i requires 0 <= i < |s| => LowerChar(s[i]))
  }

  function TrimLeft(s: string): string {
    if s != "" && IsBlank(s[0]) then TrimLeft(s[1..]) else s
  }

  function TrimRight(s: string): string {
    if s != "" && IsBlank(s[|s| - 1]) then TrimRight(s[..|s| - 1]) else s
  }

  function Trim(s: string): string {
    TrimRight(TrimLeft(s))
  }

  /** `value.trim().toLowerCase()`, the form addresses and domains are compared in. */
  function Canonical(s: string): string {
    Lower(Trim(s))
  }

  predicate Trimmed(s: string) {
    s == "" || (!IsBlank(s[0]) && !IsBlank(s[|s| - 1]))
  }

  predicate IsLower(s: string) {
    forall i | 0 <= i < |s| :: LowerChar(s[i]) == s[i]
  }

  predicate IsCanonical(s: string) {
    Trimmed(s) && IsLower(s)
  }

  predicate EndsWith(s: string, t: string) {
    |t| <= |s| && s[|s| - |t|..] == t
  }

  lemma {:induction false} TrimLeftStarts(s: string)
    ensures TrimLeft(s) == "" || !IsBlank(TrimLeft(s)[0])
    ensures EndsWith(s, TrimLeft(s))
  {
    if s != "" && IsBlank(s[0]) { TrimLeftStarts(s[1..]); }
  }

  lemma {:induction false} TrimRightEnds(s: string)
    ensures TrimRight(s) == "" || !IsBlank(TrimRight(s)[|TrimRight(s)| - 1])
    ensures TrimRight(s) <= s
  {
    if s != "" && IsBlank(s[|s| - 1]) { TrimRightEnds(s[..|s| - 1]); }
  }

  /** Trimming leaves a trimmed string, and leaves a trimmed string alone. */
  lemma TrimSettles(s: string)
    ensures Trimmed(Trim(s))
    ensures Trimmed(s) ==> Trim(s) == s
    ensures forall c | c in Trim(s) :: c in s
  {
    TrimLeftStarts(s);
    TrimRightEnds(TrimLeft(s));
  }

  lemma CanonicalSettles(s: string)
    ensures IsCanonical(Canonical(s))
    ensures IsCanonical(s) ==> Canonical(s) == s
  {
    TrimSettles(s);
    if IsCanonical(s) { assert Lower(s) == s; }
  }

  // ---------------------------------------------------------------- what trimming and folding come to

  /** One letter, in either case. */
  ghost predicate SameLetter(c: char, d: char) {
    c == d || ('a' <= c <= 'z' && d as int + 32 == c as int) || ('a' <= d <= 'z' && c as int + 32 == d as int)
  }

  ghost predicate SameUpToCase(s: string, t: string) {
    |s| == |t| && forall i | 0 <= i < |s| :: SameLetter(s[i], t[i])
  }

  /** Folding leaves no capital letter and changes nothing but case. */
  lemma LowerFolds(s: string)
    ensures SameUpToCase(Lower(s), s) && forall c | c in Lower(s) :: !('A' <= c <= 'Z')
  {}

  lemma FoldedAlike(s: string, t: string)
    ensures Lower(s) == Lower(t) <==> SameUpToCase(s, t)
  {
    var a, b := Lower(s), Lower(t);
    if SameUpToCase(s, t) {
      forall i | 0 <= i < |s| ensures a[i] == b[i] { LetterFolded(s[i], t[i]); }
    }
    if a == b {
      forall i | 0 <= i < |s| ensures SameLetter(s[i], t[i]) {
        assert a[i] == b[i];
        LetterFolded(s[i], t[i]);
      }
    }
  }

  lemma LetterFolded(c: char, d: char)
    ensures LowerChar(c) == LowerChar(d) <==> SameLetter(c, d)
  {}

  /** Space, tab, newline, return, vertical tab and form feed. */
  ghost const BLANKS := [' ', '\t', '\n', '\r', '\U{000B}', '\U{000C}']

  lemma BlankIff(c: char)
    ensures IsBlank(c) <==> c in BLANKS
  {
    assert BLANKS[0] == ' ' && BLANKS[1] == '\t' && BLANKS[2] == '\n' && BLANKS[3] == '\r';
    assert BLANKS[4] == '\U{000B}' && BLANKS[5] == '\U{000C}';
  }

  /** Trimming takes the blanks at both ends and stops at the first character that is none. */
  lemma TrimPadding(left: string, s: string, right: string)
    requires s != "" && s[0] !in BLANKS && s[|s| - 1] !in BLANKS
    requires (forall c | c in left :: c in BLANKS) && (forall c | c in right :: c in BLANKS)
    ensures Trim(left + s + right) == s
  {
    forall c: char ensures IsBlank(c) <==> c in BLANKS { BlankIff(c); }
    TrimLeftPadding(left, s + right);
    assert left + s + right == left + (s + right);
    TrimRightPadding(s, right);
  }

  lemma TrimPadded(left: string, s: string, right: string)
    requires s != "" && Trimmed(s)
    requires (forall c | c in left :: IsBlank(c)) && (forall c | c in right :: IsBlank(c))
    ensures Trim(left + s + right) == s
  {
    forall c: char ensures IsBlank(c) <==> c in BLANKS { BlankIff(c); }
    TrimPadding(left, s, right);
  }

  lemma {:induction false} TrimLeftPadding(left: string, s: string)
    requires s != "" && !IsBlank(s[0]) && forall c | c in left :: IsBlank(c)
    ensures TrimLeft(left + s) == s
  {
    if left == "" {
      assert left + s == s;
    } else {
      assert left[0] in left && (left + s)[1..] == left[1..] + s;
      TrimLeftPadding(left[1..], s);
    }
  }

  lemma {:induction false} TrimRightPadding(s: string, right: string)
    requires s != "" && !IsBlank(s[|s| - 1]) && forall c | c in right :: IsBlank(c)
    ensures TrimRight(s + right) == s
  {
    if right == "" {
      assert s + right == s;
    } else {
      var n := |right| - 1;
      assert right[n] in right && (s + right)[..|s + right| - 1] == s + right[..n];
      TrimRightPadding(s, right[..n]);
    }
  }

  lemma {:induction false} BlankTrimmed(s: string)
    requires forall c | c in s :: IsBlank(c)
    ensures Trim(s) == ""
  {
    if s != "" {
      assert s[0] in s;
      BlankTrimmed(s[1..]);
    }
  }

  // ---------------------------------------------------------------- split and join

  function Split(s: string, sep: char): (r: seq<string>)
    ensures |r| >= 1
  {
    if s == "" then [""]
    else if s[0] == sep then [""] + Split(s[1..], sep)
    else var r := Split(s[1..], sep); [[s[0]] + r[0]] + r[1..]
  }

  function Join(parts: seq<string>, sep: char): string {
    if |parts| == 0 then ""
    else if |parts| == 1 then parts[0]
    else parts[0] + [sep] + Join(parts[1..], sep)
  }

  lemma {:induction false} SplitOfFree(s: string, sep: char)
    requires sep !in s
    ensures Split(s, sep) == [s]
  {
    if s != "" {
      assert s == [s[0]] + s[1..];
      SplitOfFree(s[1..], sep);
    }
  }

  lemma {:induction false} SplitAfterFree(head: string, sep: char, rest: string)
    requires sep !in head
    ensures Split(head + [sep] + rest, sep) == [head] + Split(rest, sep)
  {
    var s := head + [sep] + rest;
    if head == "" {
      assert s[1..] == rest;
    } else {
      assert s[0] == head[0] && s[1..] == head[1..] + [sep] + rest;
      SplitAfterFree(head[1..], sep, rest);
      assert head == [head[0]] + head[1..];
    }
  }

  /** Splitting undoes joining, for a non-empty list of separator-free parts. */
  lemma {:induction false} SplitJoin(parts: seq<string>, sep: char)
    requires parts != [] && forall i | 0 <= i < |parts| :: sep !in parts[i]
    ensures Split(Join(parts, sep), sep) == parts
  {
    if |parts| == 1 {
      SplitOfFree(parts[0], sep);
    } else {
      SplitAfterFree(parts[0], sep, Join(parts[1..], sep));
      SplitJoin(parts[1..], sep);
    }
  }

  /** And joining undoes splitting, for every string. */
  lemma {:induction false} JoinSplit(s: string, sep: char)
    ensures Join(Split(s, sep), sep) == s
  {
    if s != "" {
      var rest := Split(s[1..], sep);
      JoinSplit(s[1..], sep);
      assert s == [s[0]] + s[1..];
      if s[0] == sep {
        assert ([""] + rest)[1..] == rest;
      } else {
        assert ([[s[0]] + rest[0]] + rest[1..])[1..] == rest[1..];
        if |rest| > 1 { assert [s[0]] + (rest[0] + [sep] + Join(rest[1..], sep)) == s; }
      }
    }
  }

  /** A string with the separator is split at its first one. */
  lemma {:induction false} AtFirst(s: string, sep: char) returns (head: string, rest: string)
    requires sep in s
    ensures sep !in head && s == head + [sep] + rest
  {
    if s[0] == sep {
      head, rest := "", s[1..];
    } else {
      head, rest := AtFirst(s[1..], sep);
      head := [s[0]] + head;
    }
  }

  /** The parts of a split never contain the separator. */
  lemma {:induction false} SplitPartsFree(s: string, sep: char)
    ensures forall i | 0 <= i < |Split(s, sep)| :: sep !in Split(s, sep)[i]
  {
    if s != "" { SplitPartsFree(s[1..], sep); }
  }

  /** A separator found in neither head marks where both end. */
  lemma PartAtFirst(a: string, b: string, x: string, y: string, sep: char)
    requires sep !in a && sep !in b && a + [sep] + x == b + [sep] + y
    ensures a == b && x == y
  {
    var s := a + [sep] + x;
    assert s[|a|] == sep && s[|b|] == sep;
    assert s[..|a|] == a && s[..|b|] == b && s[|a| + 1..] == x && s[|b| + 1..] == y;
  }

  /** Strings with tails of one length are equal exactly when heads and tails are. */
  lemma PartAtEnd(a: string, b: string, x: string, y: string)
    requires |x| == |y|
    ensures a + x == b + y <==> a == b && x == y
  {
    if a + x == b + y {
      assert |a + x| == |a| + |x| && |b + y| == |b| + |y|;
      assert (a + x)[..|a|] == a && (b + y)[..|b|] == b && (a + x)[|a|..] == x && (b + y)[|b|..] == y;
    }
  }

  lemma PartAfter(a: string, x: string, y: string)
    ensures a + x == a + y <==> x == y
  {
    if a + x == a + y { assert (a + x)[|a|..] == x && (a + y)[|a|..] == y; }
  }

  // ---------------------------------------------------------------- the default sort

  /** Code-point order, a prefix first. */
  predicate Below(a: string, b: string) {
    a == "" || (b != "" && (a[0] < b[0] || (a[0] == b[0] && Below(a[1..], b[1..]))))
  }

  lemma {:induction false} BelowTotal(a: string, b: string)
    ensures Below(a, b) || Below(b, a)
  {
    if a != "" && b != "" && a[0] == b[0] { BelowTotal(a[1..], b[1..]); }
  }

  lemma {:induction false} BelowAntisymmetric(a: string, b: string)
    requires Below(a, b) && Below(b, a)
    ensures a == b
  {
    if a != "" {
      BelowAntisymmetric(a[1..], b[1..]);
      assert a == [a[0]] + a[1..] && b == [b[0]] + b[1..];
    }
  }

  lemma {:induction false} BelowTransitive(a: string, b: string, c: string)
    requires Below(a, b) && Below(b, c)
    ensures Below(a, c)
  {
    if a != "" && a[0] == b[0] == c[0] { BelowTransitive(a[1..], b[1..], c[1..]); }
  }

  predicate Sorted(s: seq<string>) {
    forall i, j | 0 <= i < j < |s| :: Below(s[i], s[j])
  }

  function InsertSorted(x: string, s: seq<string>): seq<string> {
    if s == [] then [x]
    else if Below(x, s[0]) then [x] + s
    else [s[0]] + InsertSorted(x, s[1..])
  }

  function Sort(s: seq<string>): seq<string> {
    if s == [] then [] else InsertSorted(s[0], Sort(s[1..]))
  }

  lemma {:induction false} InsertSortedHolds(x: string, s: seq<string>)
    ensures multiset(InsertSorted(x, s)) == multiset(s) + multiset{x}
  {
    if s != [] {
      InsertSortedHolds(x, s[1..]);
      assert s == [s[0]] + s[1..];
    }
  }

  lemma {:induction false} InsertSortedKeeps(x: string, s: seq<string>)
    requires Sorted(s)
    ensures Sorted(InsertSorted(x, s))
  {
    if s == [] {
    } else if Below(x, s[0]) {
      forall j | 0 < j < |s| ensures Below(x, s[j]) { BelowTransitive(x, s[0], s[j]); }
    } else {
      InsertSortedKeeps(x, s[1..]);
      BelowTotal(x, s[0]);
      forall j | 0 <= j < |InsertSorted(x, s[1..])| ensures Below(s[0], InsertSorted(x, s[1..])[j]) {
        InsertedBelow(x, s, j);
      }
    }
  }

  lemma InsertedBelow(x: string, s: seq<string>, j: int)
    requires s != [] && Sorted(s) && Below(s[0], x) && 0 <= j < |InsertSorted(x, s[1..])|
    ensures Below(s[0], InsertSorted(x, s[1..])[j])
  {
    var rest := InsertSorted(x, s[1..]);
    InsertSortedHolds(x, s[1..]);
    assert rest[j] in multiset(rest);
    if rest[j] != x { assert rest[j] in s[1..]; }
  }

  lemma {:induction false} SortSorts(s: seq<string>)
    ensures Sorted(Sort(s)) && multiset(Sort(s)) == multiset(s)
  {
    if s != [] {
      SortSorts(s[1..]);
      InsertSortedKeeps(s[0], Sort(s[1..]));
      InsertSortedHolds(s[0], Sort(s[1..]));
      assert s == [s[0]] + s[1..];
    }
  }

  lemma SortedHead(a: seq<string>, b: seq<string>)
    requires Sorted(a) && Sorted(b) && multiset(a) == multiset(b) && a != [] && b != []
    ensures a[0] == b[0]
  {
    assert a[0] in multiset(b) && b[0] in multiset(a);
    var i :| 0 <= i < |b| && b[i] == a[0];
    var j :| 0 <= j < |a| && a[j] == b[0];
    BelowTotal(a[0], a[0]);
    assert Below(b[0], a[0]) && Below(a[0], b[0]);
    BelowAntisymmetric(a[0], b[0]);
  }

  /** A sorted list is determined by its elements. */
  lemma {:induction false} SortedUnique(a: seq<string>, b: seq<string>)
    requires Sorted(a) && Sorted(b) && multiset(a) == multiset(b)
    ensures a == b
  {
    assert |multiset(a)| == |a| && |multiset(b)| == |b|;
    if a != [] {
      SortedHead(a, b);
      assert a == [a[0]] + a[1..] && b == [b[0]] + b[1..];
      assert multiset(a[1..]) == multiset(a) - multiset{a[0]};
      assert multiset(b[1..]) == multiset(b) - multiset{b[0]};
      SortedUnique(a[1..], b[1..]);
    }
  }
}
