/**
 * The decision and counting logic of the dashboard's main module (app.py):
 * the legend rewrite of coded columns, the per-question chart dispatch with
 * its four-level ordinal tally, the text handed to the word cloud, the title
 * rewrite, and the router that fills one output slot per section.
 *
 * A column's pandas dtype is fixed when the table is loaded; the model takes
 * it as the column's constructor: `NumericCol` for int64/float64 columns,
 * `TextCol` for object columns (which hold strings), `OtherCol` for any other
 * dtype, of which only the row count matters here.
 */
module Dashboard {
  import opened Seqs
  import opened Text

  datatype DType = Numeric | Object | OtherDType

  datatype Column =
    | NumericCol(nums: seq<Option<real>>)
    | TextCol(texts: seq<Option<string>>)
    | OtherCol(rows: nat)

  function DTypeOf(c: Column): DType
  {
    match c
    case NumericCol(_) => Numeric
    case TextCol(_) => Object
    case OtherCol(_) => OtherDType
  }

  function Rows(c: Column): nat
  {
    match c
    case NumericCol(nums) => |nums|
    case TextCol(texts) => |texts|
    case OtherCol(n) => n
  }

  // ---------------------------------------------------------------------
  // Legend rewrite: df[col] = df[col].map(legend)
  // ---------------------------------------------------------------------

  /** The legend of app.py: letter codes of two identity questions. */
  const CustomLegend: map<string, map<string, string>> := map[
    "Professional Group" := map[
      "A" := "Marine (data) scientist and/or researcher",
      "B" := "IT programmer/software developer",
      "C" := "Business, infrastructure, or operations manager",
      "D" := "Public administration",
      "E" := "Other (please specify)"],
    "Organization Sector" := map[
      "A" := "Academia",
      "B" := "Research organisation",
      "C" := "Data and service providers",
      "D" := "Government or related policy organisations",
      "E" := "Blue Economy industry, including SMEs",
      "F" := "NGOs, including civil society & citizens",
      "G" := "Other (please specify)"]]

  /** `Series.map(dict)` on one cell: the label of a known code, otherwise missing. */
  function MapCode(cell: Option<string>, legend: map<string, string>): Option<string>
  {
    if cell.Some? && cell.value in legend then Some(legend[cell.value]) else None
  }

  /**
   * Every cell of the column is missing. A column of another dtype has no
   * modelled cells, so it never counts as all-missing.
   */
  predicate AllMissing(c: Column)
  {
    match c
    case NumericCol(nums) => forall i :: 0 <= i < |nums| ==> nums[i].None?
    case TextCol(texts) => forall i :: 0 <= i < |texts| ==> texts[i].None?
    case OtherCol(_) => false
  }

  /**
   * `Series.map(legend)` on a whole column. A non-empty legend holds string
   * labels, so the result is an object column; the legend's keys are
   * strings, so the numbers or other values of a non-text column never match
   * and such a column comes out as an object column of missing values. An
   * empty legend matches nothing, and pandas then builds the result from an
   * empty float64 mapping: a float64 column of missing values, whatever the
   * column held.
   */
  function Normalize(c: Column, legend: map<string, string>): (r: Column)
    ensures Rows(r) == Rows(c)
    ensures r.TextCol? <==> legend != map[]
    ensures legend == map[] ==> r.NumericCol? && AllMissing(r)
    ensures c.TextCol? && legend != map[] ==>
      forall i :: 0 <= i < |c.texts| ==> r.texts[i] == MapCode(c.texts[i], legend)
    ensures !c.TextCol? ==> AllMissing(r)
  {
    if legend == map[] then NumericCol(seq(Rows(c), i => None))
    else match c
      case TextCol(texts) => TextCol(seq(|texts|, i requires 0 <= i < |texts| => MapCode(texts[i], legend)))
      case _ => TextCol(seq(Rows(c), i => None))
  }

  /**
   * After the rewrite every answer of a text column is a label of the legend
   * or missing, and it is missing exactly where the cell was missing or held
   * a code the legend does not know.
   */
  lemma NormalizedCells(c: Column, legend: map<string, string>)
    requires c.TextCol? && legend != map[]
    ensures forall i :: 0 <= i < |c.texts| ==>
      var r := Normalize(c, legend).texts[i];
      && (r.Some? ==> r.value in legend.Values)
      && (r.None? <==> c.texts[i].None? || c.texts[i].value !in legend)
  {
    forall i | 0 <= i < |c.texts| && c.texts[i].Some? && c.texts[i].value in legend
      ensures legend[c.texts[i].value] in legend.Values
    {
    }
  }

  /** A code the legend does not know is not passed through: it becomes missing. */
  lemma UnknownCodeBecomesMissing()
    ensures Normalize(TextCol([Some("Z"), Some("A")]), CustomLegend["Organization Sector"])
      == TextCol([None, Some("Academia")])
  {
    var legend := CustomLegend["Organization Sector"];
    var r := Normalize(TextCol([Some("Z"), Some("A")]), legend);
    assert "Z" !in legend && "A" in legend;
    assert r.texts == [None, Some("Academia")];
  }

  /**
   * Running the rewrite twice is not harmless: when no label is also a code,
   * the second pass turns every answer into a missing value, in an object
   * column for a non-empty legend and in a float64 column for an empty one.
   */
  lemma RewriteTwiceErases(c: Column, legend: map<string, string>)
    requires legend.Keys !! legend.Values
    ensures var twice := Normalize(Normalize(c, legend), legend);
      && Rows(twice) == Rows(c)
      && (twice.TextCol? <==> legend != map[])
      && AllMissing(twice)
  {
    var once := Normalize(c, legend);
    if legend != map[] {
      NormalizedCells(once, legend);
      if c.TextCol? {
        NormalizedCells(c, legend);
      }
      forall i | 0 <= i < |once.texts| && once.texts[i].Some?
        ensures once.texts[i].value !in legend
      {
        assert once.texts[i].value in legend.Values;
      }
    }
  }

  // ---------------------------------------------------------------------
  // The question classifier of create_graph_for_question
  // ---------------------------------------------------------------------

  /** Columns shown as a plain pie, by position in the table. */
  const PiePositions: seq<nat> := [1, 2, 3, 13, 32, 33, 34]

  /** `[df.columns[1], df.columns[2], ..., df.columns[34]]`. */
  function PieQuestions(names: seq<string>): (q: seq<string>)
    requires |names| > 34
    ensures |q| == |PiePositions|
    ensures forall k :: 0 <= k < |q| ==> q[k] == names[PiePositions[k]]
  {
    seq(|PiePositions|, k requires 0 <= k < |PiePositions| => names[PiePositions[k]])
  }

  /** With distinct column names, a question gets the plain pie exactly by its position. */
  lemma PieByPosition(names: seq<string>, k: nat)
    requires NoDups(names) && |names| > 34 && k < |names|
    ensures names[k] in PieQuestions(names) <==> k in PiePositions
  {
    var q := PieQuestions(names);
    if names[k] in q {
      var m :| 0 <= m < |q| && q[m] == names[k];
      assert names[PiePositions[m]] == names[k];
    }
    if k in PiePositions {
      var m :| 0 <= m < |PiePositions| && PiePositions[m] == k;
      assert q[m] == names[k];
    }
  }

  datatype ChartKind = PlainPie | OrdinalPie | WordCloud | Unsupported

  /**
   * The first-match chain: a named pie column is a plain pie whatever its
   * dtype; otherwise a numeric column (or one flagged numeric) is an ordinal
   * pie; otherwise an object column is a word cloud; anything else is
   * unsupported. Exactly one kind applies.
   */
  function Classify(pieQuestions: seq<string>, question: string, dtype: DType, isNumeric: bool): (k: ChartKind)
    ensures k == PlainPie <==> question in pieQuestions
    ensures k == OrdinalPie <==> question !in pieQuestions && (dtype == Numeric || isNumeric)
    ensures k == WordCloud <==> question !in pieQuestions && dtype == Object && !isNumeric
    ensures k == Unsupported <==> question !in pieQuestions && dtype == OtherDType && !isNumeric
  {
    if question in pieQuestions then PlainPie
    else if dtype == Numeric || isNumeric then OrdinalPie
    else if dtype == Object then WordCloud
    else assert dtype.OtherDType?; Unsupported
  }

  /** What create_graph_for_question hands back, without the HTML around it. */
  datatype Graph =
    | PieGraph(title: string, question: string)
    | OrdinalGraph(title: string, slices: seq<Slice<string>>)
    | CloudGraph(title: string, text: string)
    | Message(text: string)

  // ---------------------------------------------------------------------
  // Ordinal tally: map 1..4 to labels, value_counts, reindex with zero fill
  // ---------------------------------------------------------------------

  const OrdinalOrder := ["Very Poor", "Poor", "Good", "Very Good"]

  const ValueMapping: map<real, string> := map[1.0 := "Very Poor", 2.0 := "Poor", 3.0 := "Good", 4.0 := "Very Good"]

  /** `df[question].map(value_mapping)` on numeric cells. */
  function MapScores(nums: seq<Option<real>>): seq<Option<string>>
  {
    if nums == [] then []
    else
      var head := if nums[0].Some? && nums[0].value in ValueMapping then Some(ValueMapping[nums[0].value]) else None;
      [head] + MapScores(nums[1..])
  }

  /**
   * `df[question].map(value_mapping)` on any column: the mapping's keys are
   * numbers, so the cells of a text column never match.
   */
  function ScoreLabels(c: Column): seq<Option<string>>
  {
    match c
    case NumericCol(nums) => MapScores(nums)
    case TextCol(texts) => seq(|texts|, i => None)
    case OtherCol(n) => seq(n, i => None)
  }

  /** The count of label `o` in a `value_counts` result, 0 when the label is absent. */
  function Lookup(vc: seq<Slice<string>>, o: string): nat
  {
    if vc == [] then 0 else if vc[0].key == o then vc[0].count else Lookup(vc[1..], o)
  }

  /** `value_counts.reindex(order, fill_value=0)`. */
  function Reindex(vc: seq<Slice<string>>, order: seq<string>): seq<Slice<string>>
  {
    seq(|order|, i requires 0 <= i < |order| => Slice(order[i], Lookup(vc, order[i])))
  }

  /** The number of cells of `c` holding the score `v` (none for a non-numeric column). */
  function ScoreCount(c: Column, v: real): nat
  {
    if c.NumericCol? then Count(c.nums, Some(v)) else 0
  }

  /**
   * The ordinal tally: exactly the four labels in scale order, each present
   * even at zero, each counting the cells holding its score 1, 2, 3 or 4;
   * missing cells and other values are dropped, so the counts sum to at most
   * the number of rows.
   */
  function OrdinalTally(c: Column): (r: seq<Slice<string>>)
    ensures |r| == 4
    ensures forall i :: 0 <= i < 4 ==> r[i].key == OrdinalOrder[i] && r[i].count == ScoreCount(c, (i + 1) as real)
    ensures SliceSum(r) <= Rows(c)
  {
    var labels := Present(ScoreLabels(c));
    ReindexIsTally(labels, OrdinalOrder);
    forall i | 0 <= i < 4 ensures Count(labels, OrdinalOrder[i]) == ScoreCount(c, (i + 1) as real) {
      ScoreLabelCount(c, i);
    }
    OrdinalSumBound(c);
    Reindex(ValueCounts(labels), OrdinalOrder)
  }

  lemma {:induction false} LookupTally(s: seq<string>, d: seq<string>, o: string)
    ensures Lookup(Tally(s, d), o) == if o in d then Count(s, o) else 0
  {
    if d != [] {
      LookupTally(s, d[1..], o);
      assert Tally(s, d)[1..] == Tally(s, d[1..]);
      assert o in d <==> o == d[0] || o in d[1..];
    }
  }

  /** Reindexing the value counts gives each label of the order its count, zero when unseen. */
  lemma ReindexIsTally(s: seq<string>, order: seq<string>)
    ensures Reindex(ValueCounts(s), order) == Tally(s, order)
  {
    forall i | 0 <= i < |order| ensures Lookup(ValueCounts(s), order[i]) == Count(s, order[i]) {
      LookupTally(s, Distinct(s), order[i]);
      CountPositive(s, order[i]);
      assert order[i] in Distinct(s) <==> order[i] in s by {
        assert order[i] in Elems(Distinct(s)) <==> order[i] in Elems(s);
      }
    }
  }

  lemma {:induction false} MapScoresCount(nums: seq<Option<real>>, i: nat)
    requires i < 4
    ensures Count(Present(MapScores(nums)), OrdinalOrder[i]) == Count(nums, Some((i + 1) as real))
  {
    if nums != [] {
      MapScoresCount(nums[1..], i);
      var h := if nums[0].Some? && nums[0].value in ValueMapping then Some(ValueMapping[nums[0].value]) else None;
      assert MapScores(nums) == [h] + MapScores(nums[1..]);
      assert Present(MapScores(nums)) == (if h.Some? then [h.value] else []) + Present(MapScores(nums[1..]));
      CountAppend(if h.Some? then [h.value] else [], Present(MapScores(nums[1..])), OrdinalOrder[i]);
    }
  }

  lemma {:induction false} NoneCellsPresent<T>(cells: seq<Option<T>>)
    requires forall i :: 0 <= i < |cells| ==> cells[i].None?
    ensures Present(cells) == []
  {
    if cells != [] {
      NoneCellsPresent(cells[1..]);
    }
  }

  lemma ScoreLabelCount(c: Column, i: nat)
    requires i < 4
    ensures Count(Present(ScoreLabels(c)), OrdinalOrder[i]) == ScoreCount(c, (i + 1) as real)
  {
    if c.NumericCol? {
      MapScoresCount(c.nums, i);
    } else {
      NoneCellsPresent(ScoreLabels(c));
    }
  }

  lemma {:induction false} MapScoresLength(nums: seq<Option<real>>)
    ensures |MapScores(nums)| == |nums|
  {
    if nums != [] {
      MapScoresLength(nums[1..]);
    }
  }

  lemma OrdinalSumBound(c: Column)
    ensures SliceSum(Tally(Present(ScoreLabels(c)), OrdinalOrder)) <= Rows(c)
  {
    var labels := Present(ScoreLabels(c));
    TallySum(labels, OrdinalOrder);
    SumCountsIsCountIn(labels, OrdinalOrder);
    CountInBound(labels, Elems(OrdinalOrder));
    PresentBound(ScoreLabels(c));
    if c.NumericCol? {
      MapScoresLength(c.nums);
    }
  }

  // ---------------------------------------------------------------------
  // Word cloud input: generate_wordcloud_for_question
  // ---------------------------------------------------------------------

  const NoValidResponses := "No valid responses for word cloud."

  function NotTextData(question: string): (m: string)
    ensures m != NoValidResponses
  {
    var m := "No word cloud for " + question + " - not text data.";
    assert m[3] == 'w' && NoValidResponses[3] == 'v';
    m
  }

  function UnsupportedType(question: string): string
  {
    "No graph or word cloud for " + question + " - unsupported data type."
  }

  /**
   * A text column yields the word cloud of its non-missing answers joined by
   * single spaces, or the "no valid responses" message when that text is
   * only whitespace, which happens exactly when every answer is blank (or
   * there is none). Any other column yields the "not text data" message.
   */
  function GenerateWordCloud(question: string, c: Column): (g: Graph)
    ensures !c.TextCol? ==> g == Message(NotTextData(question))
    ensures c.TextCol? ==>
      (g == Message(NoValidResponses) <==> forall k :: 0 <= k < |Present(c.texts)| ==> IsBlank(Present(c.texts)[k]))
    ensures c.TextCol? && g != Message(NoValidResponses) ==> g == CloudGraph(question, Join(Present(c.texts), " "))
  {
    if c.TextCol? then
      var text := Join(Present(c.texts), " ");
      JoinBlank(Present(c.texts));
      if |Strip(text)| == 0 then Message(NoValidResponses)
      else CloudGraph(question, text)
    else Message(NotTextData(question))
  }

  // ---------------------------------------------------------------------
  // create_graph_for_question
  // ---------------------------------------------------------------------

  /**
   * The graph for one question: the classifier's kind decides the branch;
   * pies carry the title with every "/" turned into a line break; the word
   * cloud branch is only reached for text columns, so it never reports "not
   * text data".
   */
  function CreateGraph(pieQuestions: seq<string>, question: string, c: Column, isNumeric: bool): (g: Graph)
    ensures Classify(pieQuestions, question, DTypeOf(c), isNumeric) == PlainPie ==>
      g == PieGraph(BreakSlashes(question), question)
    ensures Classify(pieQuestions, question, DTypeOf(c), isNumeric) == OrdinalPie ==>
      g == OrdinalGraph(BreakSlashes(question), OrdinalTally(c))
    ensures Classify(pieQuestions, question, DTypeOf(c), isNumeric) == WordCloud ==>
      c.TextCol? && g == GenerateWordCloud(question, c) && g != Message(NotTextData(question))
    ensures Classify(pieQuestions, question, DTypeOf(c), isNumeric) == Unsupported ==>
      g == Message(UnsupportedType(question))
  {
    match Classify(pieQuestions, question, DTypeOf(c), isNumeric)
    case PlainPie => PieGraph(BreakSlashes(question), question)
    case OrdinalPie => OrdinalGraph(BreakSlashes(question), OrdinalTally(c))
    case WordCloud =>
      GenerateWordCloud(question, c)
    case Unsupported => Message(UnsupportedType(question))
  }

  /** A numeric question that is one of the named pie columns still gets the plain pie. */
  lemma PieWinsOverNumeric(names: seq<string>, c: Column)
    requires |names| > 34 && c.NumericCol?
    ensures CreateGraph(PieQuestions(names), names[13], c, true).PieGraph?
  {
    assert PieQuestions(names)[3] == names[13];
  }

  /**
   * A non-text column named in a non-empty legend becomes an object column
   * of missing values, so outside the plain-pie positions it is sent to the
   * word cloud and shows the "no valid responses" message.
   */
  lemma RewrittenNonTextColumn(pieQuestions: seq<string>, question: string, c: Column, legend: map<string, string>)
    requires !c.TextCol? && question !in pieQuestions
    ensures legend != map[] ==>
      CreateGraph(pieQuestions, question, Normalize(c, legend), false) == Message(NoValidResponses)
  {
    if legend != map[] {
      var r := Normalize(c, legend);
      NoneCellsPresent(r.texts);
    }
  }

  /**
   * Any column rewritten through an empty legend becomes a float64 column of
   * missing values, so outside the plain-pie positions it gets the ordinal
   * pie with four empty slices.
   */
  lemma EmptyLegendOrdinalPie(pieQuestions: seq<string>, question: string, c: Column)
    requires question !in pieQuestions
    ensures var g := CreateGraph(pieQuestions, question, Normalize(c, map[]), false);
      && g.OrdinalGraph? && g.title == BreakSlashes(question) && |g.slices| == 4
      && forall i :: 0 <= i < 4 ==> g.slices[i] == Slice(OrdinalOrder[i], 0)
  {
    var r := Normalize(c, map[]);
    forall v: real ensures ScoreCount(r, v) == 0 {
      CountPositive(r.nums, Some(v));
    }
  }

  // ---------------------------------------------------------------------
  // Sections and the router: update_graphs_by_section
  // ---------------------------------------------------------------------

  datatype Section = Section(name: string, columns: seq<nat>)

  predicate DistinctNames(sections: seq<Section>)
  {
    forall i, j :: 0 <= i < j < |sections| ==> sections[i].name != sections[j].name
  }

  function SectionNames(sections: seq<Section>): set<string>
  {
    set k | 0 <= k < |sections| :: sections[k].name
  }

  /** `sections[selected]`: the column positions of the section with that name. */
  function SectionColumns(sections: seq<Section>, selected: string): (cols: seq<nat>)
    requires selected in SectionNames(sections)
    ensures exists k :: 0 <= k < |sections| && sections[k].name == selected && sections[k].columns == cols
  {
    if sections[0].name == selected then sections[0].columns
    else
      assert selected in SectionNames(sections[1..]) by {
        var k :| 0 <= k < |sections| && sections[k].name == selected;
        assert sections[1..][k - 1] == sections[k];
      }
      var cols := SectionColumns(sections[1..], selected);
      ghost var k :| 0 <= k < |sections[1..]| && sections[1..][k].name == selected && sections[1..][k].columns == cols;
      assert sections[k + 1] == sections[1..][k];
      cols
  }

  /** Every position in `cols` is a column of an `n`-column table that has the plain-pie positions. */
  predicate Fits(cols: seq<nat>, n: nat)
  {
    forall m :: 0 <= m < |cols| ==> cols[m] < n && n > 34
  }

  /** A tab title: "Section <number>: <topic>". */
  function SectionTitle(number: char, topic: string): (t: string)
    ensures |t| > 8 && t[8] == number
  {
    "Section " + [number] + ": " + topic
  }

  /** The positions `lo, lo + 1, ..., hi - 1`. */
  function Range(lo: nat, hi: nat): (r: seq<nat>)
    requires lo <= hi
    ensures |r| == hi - lo && forall m :: 0 <= m < |r| ==> r[m] == lo + m
  {
    seq(hi - lo, m requires 0 <= m < hi - lo => lo + m)
  }

  /** The sections of app.py, in tab order, with the column positions each shows. */
  function AppSections(): (s: seq<Section>)
    ensures DistinctNames(s)
    ensures forall i, m :: 0 <= i < |s| && 0 <= m < |s[i].columns| ==> 1 <= s[i].columns[m] <= 36
  {
    var s := [
      Section(SectionTitle('1', "About the Respondent"), Range(1, 3)),
      Section(SectionTitle('2', "About your current use of Blue-Cloud"), Range(3, 12)),
      Section(SectionTitle('3', "About Blue-Cloud thematic contribution to EOSC"), Range(12, 21)),
      Section(SectionTitle('4', "About Blue-Cloud evolution as an incubator for the EU DTO"),
              Range(24, 36)),
      Section(SectionTitle('5', "About Blue-Cloud as a contributor to the UN Ocean Decade"), [36])];
    assert forall i :: 0 <= i < |s| ==> s[i].name[8] == "12345"[i];
    s
  }

  /**
   * The router can serve every tab of the app on a table of at least 37
   * columns: the section names are distinct and every listed position is a
   * column of the table.
   */
  lemma AppSectionsRoutable(names: seq<string>, selected: string)
    requires |names| >= 37 && selected in SectionNames(AppSections())
    ensures DistinctNames(AppSections())
    ensures forall k, m :: 0 <= k < |AppSections()| && AppSections()[k].name == selected && 0 <= m < |AppSections()[k].columns| ==>
      AppSections()[k].columns[m] < |names| && |names| > 34
  {
  }

  /**
   * The loaded response table. Its columns are overwritten in place by the
   * legend rewrite; everything else only reads it.
   */
  class ResponseTable {
    var names: seq<string>
    var columns: seq<Column>

    ghost predicate Valid()
      reads this
    {
      |names| == |columns| && NoDups(names)
    }

    constructor (names: seq<string>, columns: seq<Column>)
      requires |names| == |columns| && NoDups(names)
      ensures Valid() && this.names == names && this.columns == columns
    {
      this.names := names;
      this.columns := columns;
    }

    /** Position of the column named `question`. */
    function IndexOf(question: string): (k: nat)
      reads this
      requires Valid() && question in names
      ensures k < |names| && names[k] == question
    {
      Position(names, question)
    }

    /** `df[question]`. */
    function ColumnOf(question: string): Column
      reads this
      requires Valid() && question in names
    {
      columns[IndexOf(question)]
    }

    /**
     * The graph `create_graph_for_question(question, is_numeric)` builds from
     * this table. The flag the router passes, "the column is numeric", never
     * changes the outcome: that case is already taken by the dtype test.
     */
    function GraphFor(question: string, isNumeric: bool): (g: Graph)
      reads this
      requires Valid() && question in names && |names| > 34
      ensures isNumeric == ColumnOf(question).NumericCol? ==> g == GraphFor(question, false)
    {
      CreateGraph(PieQuestions(names), question, ColumnOf(question), isNumeric)
    }

    /**
     * The legend loop: every column named in `legends` is replaced by its
     * rewrite through that legend; other columns, and the column names, stay
     * as they were.
     */
    method ApplyLegends(legends: map<string, map<string, string>>)
      requires Valid()
      modifies this
      ensures Valid() && names == old(names) && |columns| == |old(columns)|
      ensures forall i :: 0 <= i < |columns| ==>
        columns[i] == if names[i] in legends then Normalize(old(columns)[i], legends[names[i]]) else old(columns)[i]
    {
      var todo := legends.Keys;
      while todo != {}
        invariant todo <= legends.Keys
        invariant Valid() && names == old(names) && |columns| == |old(columns)|
        invariant forall i :: 0 <= i < |columns| ==>
          columns[i] == if names[i] in legends.Keys - todo then Normalize(old(columns)[i], legends[names[i]]) else old(columns)[i]
        decreases todo
      {
        var col :| col in todo;
        if col in names {
          var k := Position(names, col);
          columns := columns[k := Normalize(columns[k], legends[col])];
        }
        todo := todo - {col};
      }
    }

    /**
     * The loop of the router: one graph per listed column, in listed order,
     * each built for that column's question with the column's numeric flag.
     */
    method GraphsFor(cols: seq<nat>) returns (graphs: seq<Graph>)
      requires Valid() && Fits(cols, |names|)
      ensures |graphs| == |cols|
      ensures forall j :: 0 <= j < |cols| ==> graphs[j] == GraphFor(names[cols[j]], columns[cols[j]].NumericCol?)
    {
      graphs := [];
      var j := 0;
      while j < |cols|
        invariant 0 <= j <= |cols|
        invariant |graphs| == j
        invariant forall m :: 0 <= m < j ==> graphs[m] == GraphFor(names[cols[m]], columns[cols[m]].NumericCol?)
      {
        var question := names[cols[j]];
        assert IndexOf(question) == cols[j] by {
          assert names[IndexOf(question)] == names[cols[j]];
        }
        var isNumeric := ColumnOf(question).NumericCol?;
        graphs := graphs + [GraphFor(question, isNumeric)];
        j := j + 1;
      }
    }

    /**
     * The router: one output slot per section, in section order; only the
     * selected section's slot is filled, with one graph per listed column,
     * in listed order; every other slot is empty.
     */
    method UpdateGraphsBySection(sections: seq<Section>, selected: string) returns (slots: seq<seq<Graph>>)
      requires Valid() && DistinctNames(sections)
      requires selected in SectionNames(sections)
      requires forall k, m :: 0 <= k < |sections| && sections[k].name == selected && 0 <= m < |sections[k].columns| ==>
        sections[k].columns[m] < |names| && |names| > 34
      ensures |slots| == |sections|
      ensures forall k :: 0 <= k < |sections| && sections[k].name != selected ==> slots[k] == []
      ensures forall k :: 0 <= k < |sections| && sections[k].name == selected ==>
        var cols := sections[k].columns;
        |slots[k]| == |cols| &&
        forall j :: 0 <= j < |cols| ==> slots[k][j] == GraphFor(names[cols[j]], columns[cols[j]].NumericCol?)
    {
      var sectionColumns := SectionColumns(sections, selected);
      ghost var chosen :| 0 <= chosen < |sections| && sections[chosen].name == selected && sections[chosen].columns == sectionColumns;
      assert Fits(sectionColumns, |names|) by {
        forall m | 0 <= m < |sectionColumns| ensures sectionColumns[m] < |names| && |names| > 34 {
          assert sectionColumns[m] == sections[chosen].columns[m];
        }
      }
      var graphs := GraphsFor(sectionColumns);
      slots := seq(|sections|, k requires 0 <= k < |sections| => if sections[k].name == selected then graphs else []);
      forall k | 0 <= k < |sections| && sections[k].name == selected ensures sections[k].columns == sectionColumns {
        assert k == chosen;
      }
    }
  }
}
