/**
 * The string operations the dashboard relies on, written as Python defines
 * them: `str.isspace`, `str.strip`, `str.split(sep)`, `sep.join(parts)`,
 * `str.replace("/", "<br>")`, Python's code-point order on strings and
 * `sorted` over a list of distinct strings.
 */
module Text {
  import opened Seqs

  /** Python's `str.isspace` for one character. */
  predicate IsSpace(c: char)
  {
    || c == ' ' || c == '\t' || c == '\n' || c == '\r' || c == '\U{B}' || c == '\U{C}'
    || ('\U{1C}' <= c <= '\U{1F}') || c == '\U{85}' || c == '\U{A0}' || c == '\U{1680}'
    || ('\U{2000}' <= c <= '\U{200A}') || c == '\U{2028}' || c == '\U{2029}' || c == '\U{202F}'
    || c == '\U{205F}' || c == '\U{3000}'
  }

  /** True when `s.strip()` is the empty string. */
  predicate IsBlank(s: string)
  {
    forall i :: 0 <= i < |s| ==> IsSpace(s[i])
  }

  /** Index of the first non-whitespace character (`|s|` when there is none). */
  function TextStart(s: string): (n: nat)
    ensures n <= |s|
    ensures forall i :: 0 <= i < n ==> IsSpace(s[i])
    ensures n == |s| || !IsSpace(s[n])
  {
    if s != [] && IsSpace(s[0]) then
      var n := 1 + TextStart(s[1..]);
      assert forall i :: 1 <= i < n ==> s[i] == s[1..][i - 1];
      n
    else 0
  }

  /** Index just past the last non-whitespace character at or after `lo`. */
  function TextEnd(s: string, lo: nat, m: nat): (e: nat)
    requires lo <= m <= |s|
    requires forall i :: m <= i < |s| ==> IsSpace(s[i])
    ensures lo <= e <= m
    ensures forall i :: e <= i < |s| ==> IsSpace(s[i])
    ensures e == lo || !IsSpace(s[e - 1])
    decreases m
  {
    if m > lo && IsSpace(s[m - 1]) then TextEnd(s, lo, m - 1) else m
  }

  /**
   * Python's `str.strip()`: `s` with its leading and trailing whitespace
   * removed. The result neither starts nor ends with whitespace, and it is
   * empty exactly when `s` is blank.
   */
  function Strip(s: string): (r: string)
    ensures r == [] <==> IsBlank(s)
    ensures r == [] || (!IsSpace(r[0]) && !IsSpace(r[|r| - 1]))
    ensures exists a, e ::
      && 0 <= a <= e <= |s| && r == s[a..e]
      && (forall i :: 0 <= i < a ==> IsSpace(s[i]))
      && (forall i :: e <= i < |s| ==> IsSpace(s[i]))
    ensures forall c :: c in r ==> c in s
  {
    var a := TextStart(s);
    var e := TextEnd(s, a, |s|);
    assert forall i :: 0 <= i < e - a ==> s[a..e][i] == s[a + i];
    s[a..e]
  }

  /** A string with no whitespace at either end is its own strip. */
  lemma StripUntrimmed(s: string)
    requires s != [] && !IsSpace(s[0]) && !IsSpace(s[|s| - 1])
    ensures Strip(s) == s
  {
    assert TextStart(s) == 0;
    assert TextEnd(s, 0, |s|) == |s|;
  }

  /**
   * Python's `s.split(sep)` for a one-character separator: the pieces between
   * separators, always at least one piece ("" splits into [""], "A," into
   * ["A", ""]).
   */
  function Split(s: string, sep: char): (r: seq<string>)
    ensures |r| == Count(s, sep) + 1
    ensures forall k :: 0 <= k < |r| ==> sep !in r[k]
  {
    if s == [] then [[]]
    else
      var rest := Split(s[1..], sep);
      if s[0] == sep then [[]] + rest
      else [[s[0]] + rest[0]] + rest[1..]
  }

  /** A string without the separator splits into itself alone. */
  lemma {:induction false} SplitNoSeparator(s: string, sep: char)
    requires sep !in s
    ensures Split(s, sep) == [s]
  {
    if s != [] {
      SplitNoSeparator(s[1..], sep);
      assert s == [s[0]] + s[1..];
    }
  }

  /** Python's `sep.join(parts)`. */
  function Join(parts: seq<string>, sep: string): string
  {
    if parts == [] then []
    else if |parts| == 1 then parts[0]
    else parts[0] + sep + Join(parts[1..], sep)
  }

  /** Joining the pieces of a split with the same separator gives back the string. */
  lemma {:induction false} JoinSplit(s: string, sep: char)
    ensures Join(Split(s, sep), [sep]) == s
  {
    if s != [] {
      JoinSplit(s[1..], sep);
      var rest := Split(s[1..], sep);
      if s[0] != sep {
        if |rest| > 1 {
          assert Join(rest, [sep]) == rest[0] + [sep] + Join(rest[1..], [sep]);
        }
      }
      assert s == [s[0]] + s[1..];
    }
  }

  /**
   * `" ".join(parts).strip()` is empty exactly when every part is blank: the
   * separator is itself whitespace.
   */
  lemma {:induction false} JoinBlank(parts: seq<string>)
    ensures IsBlank(Join(parts, " ")) <==> forall k :: 0 <= k < |parts| ==> IsBlank(parts[k])
  {
    if |parts| > 1 {
      JoinBlank(parts[1..]);
      var tail := Join(parts[1..], " ");
      var j := parts[0] + " " + tail;
      assert forall i :: 0 <= i < |parts[0]| ==> j[i] == parts[0][i];
      assert forall i :: 0 <= i < |tail| ==> j[|parts[0]| + 1 + i] == tail[i];
      assert forall k :: 1 <= k < |parts| ==> parts[1..][k - 1] == parts[k];
      if IsBlank(parts[0]) && IsBlank(tail) {
        forall i | 0 <= i < |j| ensures IsSpace(j[i]) {
          if i < |parts[0]| {
          } else if i == |parts[0]| {
          } else {
            assert j[i] == tail[i - |parts[0]| - 1];
          }
        }
      }
    }
  }

  /** The title rewrite `title.replace("/", "<br>")`. */
  function BreakSlashes(s: string): string
  {
    if s == [] then []
    else (if s[0] == '/' then "<br>" else [s[0]]) + BreakSlashes(s[1..])
  }

  /** After the rewrite no slash is left, and each slash grew by three characters. */
  lemma {:induction false} BreakSlashesRemovesSlashes(s: string)
    ensures '/' !in BreakSlashes(s)
    ensures |BreakSlashes(s)| == |s| + 3 * Count(s, '/')
  {
    if s != [] {
      BreakSlashesRemovesSlashes(s[1..]);
    }
  }

  /** A title with no slash is left as it is. */
  lemma {:induction false} BreakSlashesIdentity(s: string)
    requires '/' !in s
    ensures BreakSlashes(s) == s
  {
    if s != [] {
      BreakSlashesIdentity(s[1..]);
      assert s == [s[0]] + s[1..];
    }
  }

  /**
   * The rewrite agrees with Python's definition of `replace`: split on the old
   * text and join the pieces with the new one.
   */
  lemma {:induction false} BreakSlashesIsSplitJoin(s: string)
    ensures BreakSlashes(s) == Join(Split(s, '/'), "<br>")
  {
    if s != [] {
      BreakSlashesIsSplitJoin(s[1..]);
      var rest := Split(s[1..], '/');
      if s[0] != '/' && |rest| > 1 {
        assert Join(rest, "<br>") == rest[0] + "<br>" + Join(rest[1..], "<br>");
      }
    }
  }

  // ---------------------------------------------------------------------
  // Python's ordering on strings and `sorted`
  // ---------------------------------------------------------------------

  /** Python's `a < b` on strings: code-point lexicographic order. */
  predicate StrLess(a: string, b: string)
  {
    if a == [] then b != []
    else if b == [] then false
    else if a[0] != b[0] then a[0] < b[0]
    else StrLess(a[1..], b[1..])
  }

  lemma {:induction false} StrLessIrreflexive(a: string)
    ensures !StrLess(a, a)
  {
    if a != [] {
      StrLessIrreflexive(a[1..]);
    }
  }

  lemma {:induction false} StrLessTotal(a: string, b: string)
    ensures a == b || StrLess(a, b) || StrLess(b, a)
  {
    if a != [] && b != [] && a[0] == b[0] {
      StrLessTotal(a[1..], b[1..]);
      if a[1..] == b[1..] {
        assert a == [a[0]] + a[1..] && b == [b[0]] + b[1..];
      }
    }
  }

  lemma {:induction false} StrLessTransitive(a: string, b: string, c: string)
    requires StrLess(a, b) && StrLess(b, c)
    ensures StrLess(a, c)
  {
    if a != [] && a[0] == b[0] && b[0] == c[0] {
      StrLessTransitive(a[1..], b[1..], c[1..]);
    }
  }

  predicate StrictlySorted(s: seq<string>)
  {
    forall i, j :: 0 <= i < j < |s| ==> StrLess(s[i], s[j])
  }

  function Insert(x: string, s: seq<string>): seq<string>
  {
    if s == [] then [x]
    else if StrLess(x, s[0]) then [x] + s
    else [s[0]] + Insert(x, s[1..])
  }

  /** Python's `sorted` (insertion sort; every input here is duplicate-free). */
  function SortStrings(s: seq<string>): seq<string>
  {
    if s == [] then [] else Insert(s[0], SortStrings(s[1..]))
  }

  lemma {:induction false} InsertElems(x: string, s: seq<string>)
    ensures multiset(Insert(x, s)) == multiset(s) + multiset{x}
  {
    if s != [] && !StrLess(x, s[0]) {
      InsertElems(x, s[1..]);
      assert s == [s[0]] + s[1..];
    }
  }

  /** In a strictly sorted sequence the head is below every later element. */
  lemma HeadBelowRest(s: seq<string>)
    requires StrictlySorted(s) && s != []
    ensures forall y :: y in s[1..] ==> StrLess(s[0], y)
  {
  }

  lemma {:induction false} InsertSorted(x: string, s: seq<string>)
    requires StrictlySorted(s) && x !in s
    ensures StrictlySorted(Insert(x, s))
  {
    if s != [] {
      if StrLess(x, s[0]) {
        forall j | 0 < j < |s| ensures StrLess(x, s[j]) {
          StrLessTransitive(x, s[0], s[j]);
        }
        assert forall j :: 1 <= j < |s| + 1 ==> ([x] + s)[j] == s[j - 1];
      } else {
        StrLessTotal(x, s[0]);
        var rest := s[1..];
        assert StrictlySorted(rest) by {
          assert forall i :: 0 <= i < |rest| ==> rest[i] == s[i + 1];
        }
        assert x !in rest;
        InsertSorted(x, rest);
        InsertElems(x, rest);
        HeadBelowRest(s);
        var t := Insert(x, rest);
        forall j | 0 <= j < |t| ensures StrLess(s[0], t[j]) {
          assert t[j] in multiset(t);
          assert t[j] == x || t[j] in multiset(rest);
        }
        assert Insert(x, s) == [s[0]] + t;
        assert forall j :: 1 <= j < |t| + 1 ==> ([s[0]] + t)[j] == t[j - 1];
      }
    }
  }

  /**
   * Sorting distinct strings yields them strictly ascending, with the same
   * elements and the same length.
   */
  lemma {:induction false} SortStringsSorted(s: seq<string>)
    requires NoDups(s)
    ensures StrictlySorted(SortStrings(s))
    ensures multiset(SortStrings(s)) == multiset(s)
  {
    if s != [] {
      assert forall i, j :: 0 <= i < j < |s[1..]| ==> s[1..][i] == s[i + 1] && s[1..][j] == s[j + 1];
      SortStringsSorted(s[1..]);
      assert s[0] !in s[1..] by {
        assert forall k :: 0 <= k < |s[1..]| ==> s[1..][k] == s[k + 1];
      }
      assert s[0] !in multiset(SortStrings(s[1..]));
      InsertSorted(s[0], SortStrings(s[1..]));
      InsertElems(s[0], SortStrings(s[1..]));
      assert s == [s[0]] + s[1..];
    }
  }

  /** Strict ascending order leaves no room for duplicates. */
  lemma StrictlySortedNoDups(s: seq<string>)
    requires StrictlySorted(s)
    ensures NoDups(s)
  {
    forall i, j | 0 <= i < j < |s| ensures s[i] != s[j] {
      StrLessIrreflexive(s[i]);
    }
  }
}
