/**
 * The aggregations behind the chart helpers of assets/helper_functions.py:
 * the Yes/No colour test of the plain pie, the mapped tally of the numeric
 * pie, the split-and-count of the multi-select histogram and the ranked
 * tally of the ordered pie. Each helper hands Plotly a list of rows; the
 * model stops at those rows.
 */
module Helpers {
  import opened Seqs
  import opened Text

  // ---------------------------------------------------------------------
  // Plain pie: Yes/No colour policy
  // ---------------------------------------------------------------------

  const YesColor := "#1a9850"
  const NoColor := "#d73027"

  /**
   * The colour map of `create_pie_chart`: the red/green Yes/No map when the
   * distinct non-missing answers are exactly {"Yes", "No"}, otherwise none
   * (the chart falls back to the sequential blue palette).
   */
  function YesNoColors(cells: seq<Option<string>>): (m: Option<map<string, string>>)
    ensures m.Some? <==>
      && Some("Yes") in cells && Some("No") in cells
      && forall i :: 0 <= i < |cells| && cells[i].Some? ==> cells[i].value == "Yes" || cells[i].value == "No"
    ensures m.Some? ==> m.value.Keys == {"Yes", "No"} && m.value["Yes"] == YesColor && m.value["No"] == NoColor
  {
    YesNoValues(cells);
    if Elems(Present(cells)) == {"Yes", "No"} then
      Some(map["Yes" := YesColor, "No" := NoColor])
    else
      None
  }

  /** The distinct answers are {"Yes", "No"} exactly when both occur and nothing else does. */
  lemma YesNoValues(cells: seq<Option<string>>)
    ensures Elems(Present(cells)) == {"Yes", "No"} <==>
      && Some("Yes") in cells && Some("No") in cells
      && forall i :: 0 <= i < |cells| && cells[i].Some? ==> cells[i].value == "Yes" || cells[i].value == "No"
  {
    PresentElems(cells);
    var e := Elems(Present(cells));
    if Some("Yes") in cells && Some("No") in cells
      && forall i :: 0 <= i < |cells| && cells[i].Some? ==> cells[i].value == "Yes" || cells[i].value == "No"
    {
      forall x | x in e ensures x == "Yes" || x == "No" {
        var i :| 0 <= i < |cells| && cells[i] == Some(x);
      }
      assert "Yes" in e && "No" in e;
    }
    if e == {"Yes", "No"} {
      assert "Yes" in e && "No" in e;
      forall i | 0 <= i < |cells| && cells[i].Some? ensures cells[i].value == "Yes" || cells[i].value == "No" {
        assert cells[i].value in e;
      }
    }
  }

  /** The non-missing values are exactly the values of the `Some` cells. */
  lemma {:induction false} PresentElems<T>(cells: seq<Option<T>>)
    ensures forall x :: x in Elems(Present(cells)) <==> Some(x) in cells
  {
    if cells != [] {
      PresentElems(cells[1..]);
      assert forall x :: Some(x) in cells <==> cells[0] == Some(x) || Some(x) in cells[1..];
    }
  }

  /** A column that only ever answers "Yes" does not get the Yes/No colours. */
  lemma OnlyYesIsNotYesNo()
    ensures YesNoColors([Some("Yes"), None, Some("Yes")]).None?
  {
    var cells := [Some("Yes"), None, Some("Yes")];
    assert Some("No") !in cells;
  }

  // ---------------------------------------------------------------------
  // Sorting tallies by a category order (pd.Categorical + sort_values)
  // ---------------------------------------------------------------------

  /**
   * One row of a ranked pie. After the tally is recast as a categorical with
   * `category_order` as its categories, a label outside that order becomes a
   * missing category: `name` is `None` for it.
   */
  datatype Row = Row(name: Option<string>, count: nat)

  /** The rows of `vc` carrying label `o`, recast as the category `o`. */
  function Matching(vc: seq<Slice<string>>, o: string): seq<Row>
  {
    if vc == [] then []
    else (if vc[0].key == o then [Row(Some(o), vc[0].count)] else []) + Matching(vc[1..], o)
  }

  /** The rows whose label is a category, in category order. */
  function Ranked(vc: seq<Slice<string>>, order: seq<string>): seq<Row>
  {
    if order == [] then [] else Matching(vc, order[0]) + Ranked(vc, order[1..])
  }

  /** The rows whose label is not a category: missing names, sorted last. */
  function Unranked(vc: seq<Slice<string>>, order: seq<string>): seq<Row>
  {
    if vc == [] then []
    else (if vc[0].key in order then [] else [Row(None, vc[0].count)]) + Unranked(vc[1..], order)
  }

  /**
   * `sort_values` on the categorical column: categories by rank, missing
   * categories last (in the order the tally listed them).
   */
  function RankSort(vc: seq<Slice<string>>, order: seq<string>): seq<Row>
  {
    Ranked(vc, order) + Unranked(vc, order)
  }

  function RowSum(rows: seq<Row>): nat
  {
    if rows == [] then 0 else rows[0].count + RowSum(rows[1..])
  }

  /** Rows named by a category precede unnamed ones and are in strictly increasing rank. */
  predicate RankSorted(rows: seq<Row>, order: seq<string>)
  {
    && (forall i :: 0 <= i < |rows| && rows[i].name.Some? ==> rows[i].name.value in order)
    && (forall i, j :: 0 <= i < j < |rows| && rows[j].name.Some? ==> rows[i].name.Some?)
    && (forall i, j :: 0 <= i < j < |rows| && rows[i].name.Some? && rows[j].name.Some? ==>
          rows[i].name.value in order && rows[j].name.value in order &&
          Position(order, rows[i].name.value) < Position(order, rows[j].name.value))
  }

  /** One unnamed row per label of `labels`, carrying that label's count in `s`. */
  function Unnamed(labels: seq<string>, s: seq<string>): (u: seq<Row>)
    ensures |u| == |labels|
  {
    seq(|labels|, i requires 0 <= i < |labels| => Row(None, Count(s, labels[i])))
  }

  /**
   * The properties a ranked pie over the non-missing values `s` has: every
   * value is counted once, only observed labels appear, each count is the
   * number of occurrences of its label, named rows come in category order
   * before the unnamed ones, every observed category has its row, and the
   * rows at the end are one unnamed row per distinct observed label outside
   * the order, with that label's count (in some order of the labels).
   */
  ghost predicate RankedPie(rows: seq<Row>, s: seq<string>, order: seq<string>)
  {
    && RowSum(rows) == |s|
    && RankSorted(rows, order)
    && (forall i :: 0 <= i < |rows| ==> rows[i].count >= 1)
    && (forall i :: 0 <= i < |rows| && rows[i].name.Some? ==> rows[i].count == Count(s, rows[i].name.value))
    && (forall o :: o in order && o in s ==> Row(Some(o), Count(s, o)) in rows)
    && (exists labels :: NoDups(labels) && Elems(labels) == Elems(s) - Elems(order) &&
          |labels| <= |rows| && rows[|rows| - |labels|..] == Unnamed(labels, s))
  }

  lemma {:induction false} RowSumAppend(a: seq<Row>, b: seq<Row>)
    ensures RowSum(a + b) == RowSum(a) + RowSum(b)
  {
    if a != [] {
      assert (a + b)[0] == a[0] && (a + b)[1..] == a[1..] + b;
      RowSumAppend(a[1..], b);
    } else {
      assert a + b == b;
    }
  }

  /** In a tally over distinct labels, a label has one row carrying its count, or none. */
  lemma {:induction false} MatchingTally(s: seq<string>, d: seq<string>, o: string)
    requires NoDups(d)
    ensures Matching(Tally(s, d), o) == if o in d then [Row(Some(o), Count(s, o))] else []
  {
    if d != [] {
      assert NoDups(d[1..]) by {
        assert forall i :: 0 <= i < |d[1..]| ==> d[1..][i] == d[i + 1];
      }
      MatchingTally(s, d[1..], o);
      assert Tally(s, d)[1..] == Tally(s, d[1..]);
      assert o in d <==> o == d[0] || o in d[1..];
      assert d[0] !in d[1..] by {
        assert forall i :: 0 <= i < |d[1..]| ==> d[1..][i] == d[i + 1];
      }
    }
  }

  /** The observed categories, in category order, each with its number of occurrences in `s`. */
  function ObservedInOrder(s: seq<string>, order: seq<string>): seq<Row>
  {
    if order == [] then []
    else (if order[0] in s then [Row(Some(order[0]), Count(s, order[0]))] else []) + ObservedInOrder(s, order[1..])
  }

  /** Sorting the value counts by category picks out the observed categories in category order. */
  lemma {:induction false} RankedIsObservedInOrder(s: seq<string>, order: seq<string>)
    ensures Ranked(ValueCounts(s), order) == ObservedInOrder(s, order)
  {
    if order != [] {
      RankedIsObservedInOrder(s, order[1..]);
      MatchingTally(s, Distinct(s), order[0]);
      assert order[0] in Distinct(s) <==> order[0] in s by {
        assert order[0] in Elems(Distinct(s)) <==> order[0] in Elems(s);
      }
    }
  }

  lemma {:induction false} ObservedSum(s: seq<string>, order: seq<string>)
    ensures RowSum(ObservedInOrder(s, order)) == SumCounts(s, order)
  {
    if order != [] {
      ObservedSum(s, order[1..]);
      CountPositive(s, order[0]);
      var h := if order[0] in s then [Row(Some(order[0]), Count(s, order[0]))] else [];
      RowSumAppend(h, ObservedInOrder(s, order[1..]));
    }
  }

  lemma {:induction false} ObservedRows(s: seq<string>, order: seq<string>)
    ensures var r := ObservedInOrder(s, order);
      && (forall i :: 0 <= i < |r| ==> r[i].name.Some? && r[i].name.value in order && r[i].name.value in s)
      && (forall i :: 0 <= i < |r| ==> r[i].count == Count(s, r[i].name.value) && r[i].count >= 1)
      && (forall o :: o in order && o in s ==> Row(Some(o), Count(s, o)) in r)
  {
    if order != [] {
      ObservedRows(s, order[1..]);
      CountPositive(s, order[0]);
      var h := if order[0] in s then [Row(Some(order[0]), Count(s, order[0]))] else [];
      var r' := ObservedInOrder(s, order[1..]);
      var r := h + r';
      assert forall i :: 0 <= i < |r'| ==> r[|h| + i] == r'[i];
      forall o | o in order && o in s ensures Row(Some(o), Count(s, o)) in r {
        if o != order[0] {
          assert o in order[1..];
          assert Row(Some(o), Count(s, o)) in r';
        }
      }
    }
  }

  /** Named rows whose ranks strictly increase. */
  predicate RankIncreasing(rows: seq<Row>, order: seq<string>)
  {
    && (forall i :: 0 <= i < |rows| ==> rows[i].name.Some? && rows[i].name.value in order)
    && forall i, j :: 0 <= i < j < |rows| ==>
      rows[i].name.Some? && rows[j].name.Some? && rows[i].name.value in order && rows[j].name.value in order &&
      Position(order, rows[i].name.value) < Position(order, rows[j].name.value)
  }

  /** Rows increasing in rank over the tail of the order stay increasing over the whole order, all after its head. */
  lemma LiftIncreasing(r: seq<Row>, order: seq<string>)
    requires NoDups(order) && order != [] && RankIncreasing(r, order[1..])
    ensures RankIncreasing(r, order)
    ensures forall i :: 0 <= i < |r| ==> Position(order, r[i].name.value) >= 1
  {
  }

  /** A row for the head of the order can go in front of rows that all come after it. */
  lemma ConsIncreasing(r: seq<Row>, order: seq<string>, count: nat)
    requires order != [] && RankIncreasing(r, order)
    requires forall i :: 0 <= i < |r| ==> Position(order, r[i].name.value) >= 1
    ensures RankIncreasing([Row(Some(order[0]), count)] + r, order)
  {
  }

  lemma {:induction false} ObservedIncreasing(s: seq<string>, order: seq<string>)
    requires NoDups(order)
    ensures RankIncreasing(ObservedInOrder(s, order), order)
  {
    if order != [] {
      var rest := order[1..];
      assert NoDups(rest) by {
        assert forall i :: 0 <= i < |rest| ==> rest[i] == order[i + 1];
      }
      ObservedIncreasing(s, rest);
      LiftIncreasing(ObservedInOrder(s, rest), order);
      if order[0] in s {
        ConsIncreasing(ObservedInOrder(s, rest), order, Count(s, order[0]));
      }
    }
  }

  /** Increasing named rows followed by unnamed ones are sorted by rank. */
  lemma AppendUnnamed(r: seq<Row>, u: seq<Row>, order: seq<string>)
    requires RankIncreasing(r, order)
    requires forall i :: 0 <= i < |u| ==> u[i].name.None?
    ensures RankSorted(r + u, order)
  {
  }

  /** The unnamed part of a ranked tally: it counts the values outside the order. */
  lemma {:induction false} UnrankedProps(s: seq<string>, d: seq<string>, order: seq<string>)
    requires NoDups(d)
    requires forall x :: x in d ==> x in s
    ensures var u := Unranked(Tally(s, d), order);
      && RowSum(u) == CountIn(s, Elems(d) - Elems(order))
      && (forall i :: 0 <= i < |u| ==> u[i].name.None? && u[i].count >= 1)
  {
    if d == [] {
      assert Elems(d) - Elems(order) == {};
      CountInEmpty(s);
    } else {
      var rest := d[1..];
      assert NoDups(rest) && d[0] !in rest by {
        assert forall i :: 0 <= i < |rest| ==> rest[i] == d[i + 1];
      }
      assert Tally(s, d)[1..] == Tally(s, rest);
      UnrankedProps(s, rest, order);
      CountPositive(s, d[0]);
      assert d == [d[0]] + rest;
      var u' := Unranked(Tally(s, rest), order);
      if d[0] in order {
        assert Unranked(Tally(s, d), order) == u';
        assert Elems(d) - Elems(order) == Elems(rest) - Elems(order);
      } else {
        assert Unranked(Tally(s, d), order) == [Row(None, Count(s, d[0]))] + u';
        assert Elems(d) - Elems(order) == (Elems(rest) - Elems(order)) + {d[0]};
        CountInAdd(s, Elems(rest) - Elems(order), d[0]);
      }
    }
  }

  /** The labels of `d` that are not categories, in the order of `d`. */
  function Outside(d: seq<string>, order: seq<string>): seq<string>
  {
    if d == [] then [] else (if d[0] in order then [] else [d[0]]) + Outside(d[1..], order)
  }

  /** The labels outside the order are distinct and are exactly the labels of `d` not in the order. */
  lemma {:induction false} OutsideLabels(d: seq<string>, order: seq<string>)
    requires NoDups(d)
    ensures NoDups(Outside(d, order)) && Elems(Outside(d, order)) == Elems(d) - Elems(order)
  {
    if d == [] {
      assert Elems(d) - Elems(order) == {};
    } else {
      var rest := d[1..];
      assert NoDups(rest) && d[0] !in rest by {
        assert forall i :: 0 <= i < |rest| ==> rest[i] == d[i + 1];
      }
      OutsideLabels(rest, order);
      var o := Outside(rest, order);
      assert Elems(d) == Elems(rest) + {d[0]} by {
        assert d == [d[0]] + rest;
      }
      if d[0] !in order {
        var o' := [d[0]] + o;
        assert Outside(d, order) == o';
        assert d[0] !in Elems(o);
        assert forall i :: 1 <= i < |o'| ==> o'[i] == o[i - 1];
        assert NoDups(o');
        assert Elems(o') == Elems(o) + {d[0]};
      } else {
        assert Outside(d, order) == o;
      }
    }
  }

  /** The unnamed rows of a tally are one row per label outside the order, with its count. */
  lemma {:induction false} UnrankedIsUnnamed(s: seq<string>, d: seq<string>, order: seq<string>)
    ensures Unranked(Tally(s, d), order) == Unnamed(Outside(d, order), s)
  {
    if d != [] {
      var rest := d[1..];
      assert Tally(s, d)[1..] == Tally(s, rest);
      UnrankedIsUnnamed(s, rest, order);
      if d[0] !in order {
        var o := Outside(rest, order);
        assert Unnamed([d[0]] + o, s) == [Row(None, Count(s, d[0]))] + Unnamed(o, s);
      }
    }
  }

  /** The unnamed rows at the end of a ranked tally cover the labels outside the order, one each. */
  lemma UnnamedTail(s: seq<string>, order: seq<string>)
    ensures var rows := RankSort(ValueCounts(s), order);
      exists labels :: NoDups(labels) && Elems(labels) == Elems(s) - Elems(order) &&
        |labels| <= |rows| && rows[|rows| - |labels|..] == Unnamed(labels, s)
  {
    var d := Distinct(s);
    var vc := ValueCounts(s);
    UnrankedIsUnnamed(s, d, order);
    OutsideLabels(d, order);
    var labels := Outside(d, order);
    var rows := RankSort(vc, order);
    assert rows == Ranked(vc, order) + Unnamed(labels, s);
    assert rows[|rows| - |labels|..] == Unnamed(labels, s);
  }

  /** Named rows counting their labels, followed by unnamed rows, keep each row's count facts. */
  lemma JoinRows(r: seq<Row>, u: seq<Row>, s: seq<string>, order: seq<string>)
    requires forall i :: 0 <= i < |r| ==> r[i].name.Some? && r[i].count == Count(s, r[i].name.value) && r[i].count >= 1
    requires forall i :: 0 <= i < |u| ==> u[i].name.None? && u[i].count >= 1
    requires forall o :: o in order && o in s ==> Row(Some(o), Count(s, o)) in r
    ensures var rows := r + u;
      && (forall i :: 0 <= i < |rows| ==> rows[i].count >= 1)
      && (forall i :: 0 <= i < |rows| && rows[i].name.Some? ==> rows[i].count == Count(s, rows[i].name.value))
      && (forall o :: o in order && o in s ==> Row(Some(o), Count(s, o)) in rows)
  {
  }

  /** A ranked tally of the values `s` (value_counts, then categorical sort) is a ranked pie of `s`. */
  lemma RankSortValueCounts(s: seq<string>, order: seq<string>)
    requires NoDups(order)
    ensures RankedPie(RankSort(ValueCounts(s), order), s, order)
  {
    var d := Distinct(s);
    var vc := ValueCounts(s);
    RankedIsObservedInOrder(s, order);
    ObservedIncreasing(s, order);
    ObservedRows(s, order);
    assert forall x :: x in d ==> x in s by {
      assert Elems(d) == Elems(s);
      assert forall x :: x in d ==> x in Elems(d);
    }
    UnrankedProps(s, d, order);
    AppendUnnamed(Ranked(vc, order), Unranked(vc, order), order);
    RankSortSum(s, order);
    JoinRows(Ranked(vc, order), Unranked(vc, order), s, order);
    UnnamedTail(s, order);
  }

  /** Every value of `s` is counted once, under its category or among the unnamed rows. */
  lemma RankSortSum(s: seq<string>, order: seq<string>)
    requires NoDups(order)
    ensures RowSum(RankSort(ValueCounts(s), order)) == |s|
  {
    var d := Distinct(s);
    var vc := ValueCounts(s);
    RankedIsObservedInOrder(s, order);
    ObservedSum(s, order);
    assert forall x :: x in d ==> x in s by {
      assert Elems(d) == Elems(s);
      assert forall x :: x in d ==> x in Elems(d);
    }
    UnrankedProps(s, d, order);
    RowSumAppend(Ranked(vc, order), Unranked(vc, order));
    SumCountsIsCountIn(s, order);
    assert forall x :: x in s ==> x in Elems(d) by {
      assert Elems(d) == Elems(s);
    }
    CountInComplement(s, Elems(order), Elems(d) - Elems(order));
  }

  // ---------------------------------------------------------------------
  // Numeric pie: map, fill "Unknown", count, sort by category order
  // ---------------------------------------------------------------------

  const Unknown := "Unknown"

  /** `df[question].map(value_mapping).fillna("Unknown")`. */
  function MapOrUnknown<K>(cells: seq<Option<K>>, valueMapping: map<K, string>): seq<string>
  {
    seq(|cells|, i requires 0 <= i < |cells| =>
      if cells[i].Some? && cells[i].value in valueMapping then valueMapping[cells[i].value] else Unknown)
  }

  /** The rows `create_numeric_pie_chart` hands to the pie. */
  function NumericPie<K>(cells: seq<Option<K>>, valueMapping: map<K, string>, categoryOrder: seq<string>): (rows: seq<Row>)
    requires NoDups(categoryOrder)
    ensures RankedPie(rows, MapOrUnknown(cells, valueMapping), categoryOrder)
    ensures RowSum(rows) == |cells|
  {
    RankSortValueCounts(MapOrUnknown(cells, valueMapping), categoryOrder);
    RankSort(ValueCounts(MapOrUnknown(cells, valueMapping)), categoryOrder)
  }

  /** The number of cells that are missing or have no entry in the mapping. */
  function Unmapped<K>(cells: seq<Option<K>>, valueMapping: map<K, string>): nat
  {
    if cells == [] then 0
    else (if cells[0].None? || cells[0].value !in valueMapping then 1 else 0) + Unmapped(cells[1..], valueMapping)
  }

  /**
   * When no code maps to "Unknown" itself, the "Unknown" label counts exactly
   * the missing and unmapped cells.
   */
  lemma {:induction false} UnknownBucket<K>(cells: seq<Option<K>>, valueMapping: map<K, string>)
    requires Unknown !in valueMapping.Values
    ensures Count(MapOrUnknown(cells, valueMapping), Unknown) == Unmapped(cells, valueMapping)
  {
    if cells != [] {
      UnknownBucket(cells[1..], valueMapping);
      assert MapOrUnknown(cells, valueMapping)[1..] == MapOrUnknown(cells[1..], valueMapping);
      if cells[0].Some? && cells[0].value in valueMapping {
        assert valueMapping[cells[0].value] in valueMapping.Values;
      }
    }
  }

  // ---------------------------------------------------------------------
  // Ordered pie: count the non-missing answers, sort by category order
  // ---------------------------------------------------------------------

  /** The rows `create_ordered_pie_chart` hands to the pie. */
  function OrderedPie(cells: seq<Option<string>>, categoryOrder: seq<string>): (rows: seq<Row>)
    requires NoDups(categoryOrder)
    ensures RankedPie(rows, Present(cells), categoryOrder)
    ensures RowSum(rows) <= |cells|
  {
    RankSortValueCounts(Present(cells), categoryOrder);
    PresentBound(cells);
    RankSort(ValueCounts(Present(cells)), categoryOrder)
  }

  /** The agreement scale used with the ordered pie, by rank. */
  const AgreementScale := ["I fully disagree", "I slightly disagree", "I slightly agree", "I fully agree"]

  const AgreementColors: map<string, string> := map[
    "I fully disagree" := "#d73027",
    "I slightly disagree" := "#fc8d59",
    "I slightly agree" := "#fee08b",
    "I fully agree" := "#1a9850"]

  /**
   * The colour the ordered pie gives a label: defined for exactly the four
   * agreement labels, four distinct colours, and the two extremes share the
   * No and Yes colours of the plain pie.
   */
  function AgreementColor(answer: string): (c: Option<string>)
    ensures c.Some? <==> answer in AgreementScale
    ensures answer == AgreementScale[0] ==> c == Some(NoColor)
    ensures answer == AgreementScale[3] ==> c == Some(YesColor)
    ensures forall l :: l in AgreementScale && l != answer && c.Some? ==> AgreementColors[l] != c.value
  {
    if answer in AgreementColors then Some(AgreementColors[answer]) else None
  }

  // ---------------------------------------------------------------------
  // Multi-select histogram
  // ---------------------------------------------------------------------

  /** One cell's answers: split on "," and strip each piece. */
  function Pieces(cell: string): (r: seq<string>)
    ensures |r| == Count(cell, ',') + 1
    ensures forall k :: 0 <= k < |r| ==> r[k] == Strip(Split(cell, ',')[k]) && ',' !in r[k]
  {
    var parts := Split(cell, ',');
    seq(|parts|, i requires 0 <= i < |parts| => Strip(parts[i]))
  }

  /** `dropna().str.split(",").explode().str.strip()` as a list of tokens. */
  function Tokens(cells: seq<Option<string>>): seq<string>
  {
    if cells == [] then []
    else (if cells[0].Some? then Pieces(cells[0].value) else []) + Tokens(cells[1..])
  }

  /** The number of commas over all answered cells. */
  function CommaTotal(cells: seq<Option<string>>): nat
  {
    if cells == [] then 0
    else (if cells[0].Some? then Count(cells[0].value, ',') else 0) + CommaTotal(cells[1..])
  }

  /** Each answered cell yields one token more than it holds commas. */
  lemma {:induction false} TokensLength(cells: seq<Option<string>>)
    ensures |Tokens(cells)| == |Present(cells)| + CommaTotal(cells)
  {
    if cells != [] {
      TokensLength(cells[1..]);
    }
  }

  /** Every answer is a single choice: none holds a comma. */
  predicate SingleChoices(answers: seq<string>)
  {
    forall k :: 0 <= k < |answers| ==> ',' !in answers[k]
  }

  /** There are no commas at all exactly when every answered cell is a single choice. */
  lemma {:induction false} NoCommas(cells: seq<Option<string>>)
    ensures CommaTotal(cells) == 0 <==> SingleChoices(Present(cells))
  {
    if cells != [] {
      NoCommas(cells[1..]);
      var p, rest := Present(cells), Present(cells[1..]);
      if cells[0].Some? {
        CountPositive(cells[0].value, ',');
        assert p == [cells[0].value] + rest;
        assert forall k :: 0 <= k < |rest| ==> rest[k] == p[k + 1];
        assert SingleChoices(p) <==> ',' !in p[0] && SingleChoices(rest);
      } else {
        assert p == rest;
      }
    }
  }

  /** The bars of `create_multi_select_histogram`: sorted distinct tokens with their counts. */
  function MultiSelectCounts(cells: seq<Option<string>>): seq<Slice<string>>
  {
    var tokens := Tokens(cells);
    Tally(tokens, SortStrings(Distinct(tokens)))
  }

  /** The bar labels are the distinct tokens, strictly ascending. */
  lemma MultiSelectLabels(cells: seq<Option<string>>)
    ensures StrictlySorted(Labels(MultiSelectCounts(cells)))
    ensures Elems(Labels(MultiSelectCounts(cells))) == Elems(Tokens(cells))
  {
    var t := Tokens(cells);
    var d := Distinct(t);
    var labels := SortStrings(d);
    SortStringsSorted(d);
    TallySum(t, labels);
    assert Elems(labels) == Elems(d) by {
      assert forall x :: x in labels <==> x in multiset(labels);
      assert forall x :: x in d <==> x in multiset(d);
    }
  }

  /**
   * Each bar counts the occurrences of its token (at least one); the counts
   * add up to the number of tokens, which is at least the number of
   * answered cells, and equal to it exactly when every answer is a single
   * choice (no answered cell holds a comma).
   */
  lemma MultiSelectCountsProps(cells: seq<Option<string>>)
    ensures var r := MultiSelectCounts(cells);
      && (forall i :: 0 <= i < |r| ==> r[i].count == Count(Tokens(cells), r[i].key) && r[i].count >= 1)
      && SliceSum(r) == |Tokens(cells)|
      && SliceSum(r) >= |Present(cells)|
      && (SliceSum(r) == |Present(cells)| <==> SingleChoices(Present(cells)))
  {
    var t := Tokens(cells);
    var labels := SortStrings(Distinct(t));
    MultiSelectLabels(cells);
    TallySum(t, labels);
    StrictlySortedNoDups(labels);
    SumCountsIsCountIn(t, labels);
    assert forall i :: 0 <= i < |t| ==> t[i] in Elems(labels) by {
      assert forall i :: 0 <= i < |t| ==> t[i] in Elems(t);
    }
    CountInBound(t, Elems(labels));
    forall i | 0 <= i < |labels| ensures Count(t, labels[i]) >= 1 {
      assert labels[i] in Elems(labels);
      CountPositive(t, labels[i]);
    }
    TokensLength(cells);
    NoCommas(cells);
  }

  /** The worked example: "A,B", "B", "C" give A:1, B:2, C:1 (four ticks for three answers). */
  lemma MultiSelectExample()
    ensures MultiSelectCounts([Some("A,B"), Some("B"), Some("C")]) == [Slice("A", 1), Slice("B", 2), Slice("C", 1)]
  {
    var t := ExampleTokens();
    ExampleDistinct(t);
    ExampleSorted();
    ExampleCounts(t);
  }

  lemma ExampleDistinct(t: seq<string>)
    requires t == ["A", "B", "B", "C"]
    ensures Distinct(t) == ["A", "B", "C"]
  {
    assert t[..3] == ["A", "B", "B"] && t[..3][..2] == ["A", "B"] && t[..3][..2][..1] == ["A"];
    assert ["A"][..0] == [];
    assert Distinct(["A"]) == ["A"];
    assert Distinct(["A", "B"]) == ["A", "B"];
    assert Distinct(["A", "B", "B"]) == ["A", "B"];
  }

  lemma ExampleSorted()
    ensures SortStrings(["A", "B", "C"]) == ["A", "B", "C"]
  {
    assert StrLess("B", "C") && StrLess("A", "B");
    assert ["A", "B", "C"][1..] == ["B", "C"] && ["B", "C"][1..] == ["C"];
    assert SortStrings(["C"]) == ["C"];
    assert SortStrings(["B", "C"]) == ["B", "C"];
  }

  lemma ExampleCounts(t: seq<string>)
    requires t == ["A", "B", "B", "C"]
    ensures Count(t, "A") == 1 && Count(t, "B") == 2 && Count(t, "C") == 1
  {
    assert "A" != "B" && "A" != "C" && "B" != "C";
    assert t[1..] == ["B", "B", "C"] && t[1..][1..] == ["B", "C"] && t[1..][1..][1..] == ["C"];
    assert Count(["C"], "A") == 0 && Count(["C"], "B") == 0 && Count(["C"], "C") == 1;
    assert Count(["B", "C"], "A") == 0 && Count(["B", "C"], "B") == 1 && Count(["B", "C"], "C") == 1;
    assert Count(["B", "B", "C"], "A") == 0 && Count(["B", "B", "C"], "B") == 2;
  }

  lemma ExampleTokens() returns (t: seq<string>)
    ensures t == Tokens([Some("A,B"), Some("B"), Some("C")]) == ["A", "B", "B", "C"]
  {
    ExampleTokensTail();
    ExamplePieces();
    TokensCons("A,B", [Some("B"), Some("C")]);
    assert [Some("A,B"), Some("B"), Some("C")] == [Some("A,B")] + [Some("B"), Some("C")];
    t := ["A", "B", "B", "C"];
  }

  lemma ExampleTokensTail()
    ensures Tokens([Some("B"), Some("C")]) == ["B", "C"]
  {
    SinglePiece("C");
    TokensCons("C", []);
    assert [Some("C")] == [Some("C")] + [];
    SinglePiece("B");
    TokensCons("B", [Some("C")]);
    assert [Some("B"), Some("C")] == [Some("B")] + [Some("C")];
  }

  lemma TokensCons(answer: string, rest: seq<Option<string>>)
    ensures Tokens([Some(answer)] + rest) == Pieces(answer) + Tokens(rest)
  {
    assert ([Some(answer)] + rest)[1..] == rest;
  }

  lemma SinglePiece(answer: string)
    requires answer != [] && ',' !in answer && !IsSpace(answer[0]) && !IsSpace(answer[|answer| - 1])
    ensures Pieces(answer) == [answer]
  {
    SplitNoSeparator(answer, ',');
    StripUntrimmed(answer);
  }

  lemma ExamplePieces()
    ensures Pieces("A,B") == ["A", "B"]
  {
    assert Split("A,B", ',') == ["A", "B"] by {
      SplitNoSeparator("B", ',');
      assert ",B"[1..] == "B" && ",B"[0] == ',';
      assert Split(",B", ',') == [[]] + ["B"];
      assert "A,B"[1..] == ",B" && "A,B"[0] == 'A';
      assert Split("A,B", ',') == [['A'] + []] + ["B"];
      assert ['A'] + [] == "A";
    }
    StripUntrimmed("A");
    StripUntrimmed("B");
  }

  /** A trailing comma leaves an empty answer, which is counted like any other. */
  lemma ExampleTrailingComma()
    ensures Pieces("A,") == ["A", ""]
  {
    assert Split("A,", ',') == ["A", ""] by {
      assert ","[1..] == [] && ","[0] == ',';
      assert Split(",", ',') == [[]] + [[]];
      assert "A,"[1..] == "," && "A,"[0] == 'A';
      assert Split("A,", ',') == [['A'] + []] + [[]];
      assert ['A'] + [] == "A";
    }
    StripUntrimmed("A");
    assert Strip("") == "";
  }
}
