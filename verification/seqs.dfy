/**
 * Generic sequence vocabulary shared by the aggregators: missing cells,
 * occurrence counts, first-appearance de-duplication (pandas `unique`),
 * tallies of labels, and the counting lemmas the aggregators rely on.
 */
module Seqs {

  /** A cell of a column: `None` is pandas' missing value (NaN). */
  datatype Option<T> = None | Some(value: T)

  /** One output row of a tally: a label and how often it occurs. */
  datatype Slice<T> = Slice(key: T, count: nat)

  /** Number of occurrences of `x` in `s` (Python's `list.count`). */
  function Count<T(==)>(s: seq<T>, x: T): nat
  {
    if s == [] then 0 else (if s[0] == x then 1 else 0) + Count(s[1..], x)
  }

  /** Number of elements of `s` that belong to `a`. */
  function CountIn<T(==)>(s: seq<T>, a: set<T>): nat
  {
    if s == [] then 0 else (if s[0] in a then 1 else 0) + CountIn(s[1..], a)
  }

  /** The non-missing cells, in row order (pandas `dropna`). */
  function Present<T>(cells: seq<Option<T>>): seq<T>
  {
    if cells == [] then []
    else (if cells[0].Some? then [cells[0].value] else []) + Present(cells[1..])
  }

  predicate NoDups<T(==)>(s: seq<T>)
  {
    forall i, j :: 0 <= i < j < |s| ==> s[i] != s[j]
  }

  function Elems<T>(s: seq<T>): set<T>
  {
    set x | x in s
  }

  /** Position of the first occurrence of `x` in `s` (`list.index`); a category's rank in its order. */
  function Position<T(==)>(s: seq<T>, x: T): (k: nat)
    requires x in s
    ensures k < |s| && s[k] == x
  {
    if s[0] == x then 0 else 1 + Position(s[1..], x)
  }

  /** The distinct elements of `s` in order of first appearance (pandas `unique`). */
  function Distinct<T(==)>(s: seq<T>): (d: seq<T>)
    ensures NoDups(d)
    ensures Elems(d) == Elems(s)
    ensures |d| <= |s|
  {
    if s == [] then []
    else
      var init := Distinct(s[..|s| - 1]);
      assert s == s[..|s| - 1] + [s[|s| - 1]];
      assert Elems(s) == Elems(s[..|s| - 1]) + {s[|s| - 1]};
      if s[|s| - 1] in init then init else init + [s[|s| - 1]]
  }

  /** One row per label of `labels`, counting its occurrences in `s`. */
  function Tally<T(==)>(s: seq<T>, labels: seq<T>): (r: seq<Slice<T>>)
    ensures |r| == |labels|
    ensures forall i :: 0 <= i < |r| ==> r[i].key == labels[i] && r[i].count == Count(s, labels[i])
  {
    if labels == [] then [] else [Slice(labels[0], Count(s, labels[0]))] + Tally(s, labels[1..])
  }

  /** pandas `value_counts` before its final sort: the distinct values with their counts. */
  function ValueCounts<T(==)>(s: seq<T>): seq<Slice<T>>
  {
    Tally(s, Distinct(s))
  }

  function Labels<T>(rows: seq<Slice<T>>): seq<T>
  {
    if rows == [] then [] else [rows[0].key] + Labels(rows[1..])
  }

  function SliceSum<T>(rows: seq<Slice<T>>): nat
  {
    if rows == [] then 0 else rows[0].count + SliceSum(rows[1..])
  }

  /** Sum over `labels` of the occurrences of each label in `s`. */
  function SumCounts<T(==)>(s: seq<T>, labels: seq<T>): nat
  {
    if labels == [] then 0 else Count(s, labels[0]) + SumCounts(s, labels[1..])
  }

  // ---------------------------------------------------------------------
  // Counting lemmas
  // ---------------------------------------------------------------------

  lemma {:induction false} CountPositive<T>(s: seq<T>, x: T)
    ensures x in s <==> Count(s, x) >= 1
  {
    if s != [] {
      CountPositive(s[1..], x);
      assert x in s <==> s[0] == x || x in s[1..];
    }
  }

  lemma {:induction false} CountAppend<T>(a: seq<T>, b: seq<T>, x: T)
    ensures Count(a + b, x) == Count(a, x) + Count(b, x)
  {
    if a == [] {
      assert a + b == b;
    } else {
      assert (a + b)[0] == a[0] && (a + b)[1..] == a[1..] + b;
      CountAppend(a[1..], b, x);
    }
  }

  lemma {:induction false} CountInBound<T>(s: seq<T>, a: set<T>)
    ensures CountIn(s, a) <= |s|
    ensures (forall i :: 0 <= i < |s| ==> s[i] in a) ==> CountIn(s, a) == |s|
  {
    if s != [] {
      CountInBound(s[1..], a);
      assert forall i :: 1 <= i < |s| ==> s[1..][i - 1] == s[i];
    }
  }

  /** Adding one fresh element `x` to the set adds exactly the occurrences of `x`. */
  lemma {:induction false} CountInAdd<T>(s: seq<T>, a: set<T>, x: T)
    requires x !in a
    ensures CountIn(s, a + {x}) == Count(s, x) + CountIn(s, a)
  {
    if s != [] {
      CountInAdd(s[1..], a, x);
    }
  }

  /** Summing the counts of pairwise distinct labels counts each element of `s` at most once. */
  lemma {:induction false} SumCountsIsCountIn<T>(s: seq<T>, labels: seq<T>)
    requires NoDups(labels)
    ensures SumCounts(s, labels) == CountIn(s, Elems(labels))
  {
    if labels == [] {
      assert Elems(labels) == {};
      CountInEmpty(s);
    } else {
      var rest := labels[1..];
      assert NoDups(rest) by {
        forall i, j | 0 <= i < j < |rest| ensures rest[i] != rest[j] {
          assert rest[i] == labels[i + 1] && rest[j] == labels[j + 1];
        }
      }
      SumCountsIsCountIn(s, rest);
      assert labels[0] !in Elems(rest) by {
        assert forall k :: 0 <= k < |rest| ==> rest[k] == labels[k + 1];
      }
      assert Elems(labels) == Elems(rest) + {labels[0]} by {
        assert labels == [labels[0]] + rest;
      }
      CountInAdd(s, Elems(rest), labels[0]);
    }
  }

  lemma {:induction false} CountInEmpty<T>(s: seq<T>)
    ensures CountIn(s, {}) == 0
  {
    if s != [] {
      CountInEmpty(s[1..]);
    }
  }

  /** When `a` and `b` split the elements of `s`, their counts add up to `|s|`. */
  lemma {:induction false} CountInComplement<T>(s: seq<T>, a: set<T>, b: set<T>)
    requires forall i :: 0 <= i < |s| ==> (s[i] in a <==> s[i] !in b)
    ensures CountIn(s, a) + CountIn(s, b) == |s|
  {
    if s != [] {
      assert forall i :: 1 <= i < |s| ==> s[1..][i - 1] == s[i];
      CountInComplement(s[1..], a, b);
    }
  }

  lemma {:induction false} TallySum<T>(s: seq<T>, labels: seq<T>)
    ensures SliceSum(Tally(s, labels)) == SumCounts(s, labels)
    ensures Labels(Tally(s, labels)) == labels
  {
    if labels != [] {
      TallySum(s, labels[1..]);
    }
  }

  lemma {:induction false} PresentBound<T>(cells: seq<Option<T>>)
    ensures |Present(cells)| <= |cells|
    ensures (forall i :: 0 <= i < |cells| ==> cells[i].Some?) ==> |Present(cells)| == |cells|
  {
    if cells != [] {
      PresentBound(cells[1..]);
      assert forall i :: 1 <= i < |cells| ==> cells[1..][i - 1] == cells[i];
    }
  }

  /**
   * The value counts of `s` cover every element once: their counts sum to
   * `|s|`, every count is at least one, and the labels are distinct.
   */
  lemma ValueCountsSum<T>(s: seq<T>)
    ensures SliceSum(ValueCounts(s)) == |s|
    ensures NoDups(Labels(ValueCounts(s)))
    ensures forall i :: 0 <= i < |ValueCounts(s)| ==> ValueCounts(s)[i].count >= 1
  {
    var d := Distinct(s);
    TallySum(s, d);
    SumCountsIsCountIn(s, d);
    CountInBound(s, Elems(d));
    forall i | 0 <= i < |d| ensures Count(s, d[i]) >= 1 {
      assert d[i] in Elems(s);
      CountPositive(s, d[i]);
    }
  }
}
