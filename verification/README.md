# Survey dashboard: chart selection and answer tallies

This project models the data-handling core of a Dash dashboard that shows the
answers of a survey, section by section. The survey table is loaded once.
Two coded identity questions ("Professional Group", "Organization Sector")
have their letter codes rewritten to labels. Each question then gets a chart
chosen from its position in the table and its column type:

- a plain pie for seven named positions;
- a four-level ordinal pie for numeric answers;
- a word cloud for free text;
- a placeholder message for anything else.

A tab control picks a section. The router fills that section's output slot,
one graph per column, and leaves every other slot empty.

The helper module adds further aggregations:

- Yes/No colouring of pies;
- a numeric pie whose unmapped answers become "Unknown";
- an ordered pie for agreement scales, with its colour map;
- a tally of comma-separated multi-select answers.

The model is in four modules:

- `Seqs` (seqs.dfy): missing cells, occurrence counts, first-appearance
  de-duplication (pandas `unique`) and tallies (pandas `value_counts`), with
  their counting lemmas.
- `Text` (text.dfy): Python's `str.strip`, `str.split`, `str.join` and
  `str.replace("/", "<br>")`, plus code-point string ordering and `sorted`.
- `Helpers` (helper_functions.dfy): the aggregations of
  `assets/helper_functions.py`.
- `Dashboard` (app.dfy): the legend rewrite, the classifier, the ordinal
  tally, the word-cloud input, the sections and the router of `app.py`. The
  table is the class `ResponseTable`. Its columns are overwritten in place by
  the legend loop; the router only reads it.

A column's pandas dtype is represented by the column's constructor:

- `NumericCol` for int64/float64 columns;
- `TextCol` for object columns, which hold strings after `read_csv`;
- `OtherCol` for any other dtype.

Three behaviours of the code are easy to misread; the model follows the code
in each:

- `df[col].map(legend)` turns a code with no legend entry into a missing
  value. It is not passed through unchanged (`Dashboard.UnknownCodeBecomesMissing`).
  Running the rewrite a second time erases the column (`Dashboard.RewriteTwiceErases`).
- In the ordinal pie, missing answers and answers outside 1..4 are dropped
  by `value_counts`. They are not collected under a "No Answer" label.
- In the numeric and ordered pies, a label outside the category order has
  no neutral colour bucket. `pd.Categorical` turns its name into a missing
  value, and the row keeps its count (`Helpers.Row` with `name == None`).

## Model

| member | source | states |
|---|---|---|
| Dashboard.Normalize | app.py:38-40 | The legend rewrite keeps the row count. A non-empty legend yields an object (text) column: each text cell becomes its legend label, or missing when the code is unknown or the cell was missing, and a numeric or other non-text column comes out as missing values because the legend's keys are strings. An empty legend yields a float64 column of missing values whatever the column held, as `Series.map({})` does. |
| Dashboard.NormalizedCells | app.py:38-40 | After the rewrite of a text column through a non-empty legend, every answer is a label of the legend. An answer is missing exactly when the cell was missing or held an unknown code. |
| Dashboard.UnknownCodeBecomesMissing | app.py:18-40 | With the "Organization Sector" legend, code "Z" becomes missing and code "A" becomes "Academia". |
| Dashboard.RewriteTwiceErases | app.py:38-40 | The rewrite is not idempotent: when no label is also a code, a second pass leaves every cell missing, whatever the column's type. The result is an object column exactly when the legend is non-empty. |
| Dashboard.RewrittenNonTextColumn | app.py:38-40 | A non-text column rewritten through a non-empty legend is sent to the word cloud outside the plain-pie positions and shows the "No valid responses" message. |
| Dashboard.EmptyLegendOrdinalPie | app.py:38-40 | Any column rewritten through an empty legend is a float64 column, so outside the plain-pie positions it gets the ordinal pie with four zero slices in scale order. |
| Dashboard.ResponseTable.ApplyLegends | app.py:37-40 | The legend loop replaces each column named in the legends by its rewrite. Other columns and the column names are unchanged, and the table stays well formed. |
| Dashboard.PieQuestions | app.py:140 | The plain-pie question list is the names at positions 1, 2, 3, 13, 32, 33, 34, in that order. |
| Dashboard.PieByPosition | app.py:140 | With distinct column names, a column gets the plain pie if and only if its position is one of the seven listed. |
| Dashboard.Classify | app.py:135-218 | First match wins. A listed question is a plain pie whatever its dtype. Otherwise numeric dtype or the numeric flag gives the ordinal pie, object dtype gives the word cloud, and anything else is unsupported. Each kind is stated as an if-and-only-if. |
| Dashboard.OrdinalTally | app.py:169-178 | Exactly four slices, labelled Very Poor, Poor, Good, Very Good in that order. Slice i counts the cells holding the score i+1, with zero when the score is absent. A non-numeric column gives four zeros. The counts sum to at most the row count. |
| Dashboard.ReindexIsTally | app.py:176-177 | `Dashboard.Reindex` of the value counts, i.e. `value_counts().reindex(order, fill_value=0)`, gives every label of the order its number of occurrences, zero for an unseen label. |
| Dashboard.MapScoresCount | app.py:172-176 | After `map(value_mapping)` and dropping missing values, a label occurs exactly as often as its score occurred. |
| Dashboard.GenerateWordCloud | app.py:220-270 | A text column yields its non-missing answers joined by spaces. It yields the "No valid responses" message if and only if every answer is blank. A column that is not text yields the "not text data" message. |
| Dashboard.CreateGraph | app.py:135-218 | Each branch of the classifier produces its graph. Pies carry the title with every "/" turned into "<br>". The ordinal pie carries the ordinal tally. The word-cloud branch never reports "not text data". The unsupported branch gives the placeholder message. |
| Dashboard.PieWinsOverNumeric | app.py:140-169 | A numeric column at position 13 still gets the plain pie, not the ordinal pie. |
| Dashboard.SectionColumns | app.py:345 | Looking up a section by name returns the columns of a section that has that name. |
| Dashboard.AppSections | app.py:127-133 | The five sections have distinct names, and every listed column position is between 1 and 36. |
| Dashboard.AppSectionsRoutable | app.py:127-133 | On a table of at least 37 columns, the router's requirements hold for every tab of the app. |
| Dashboard.ResponseTable.IndexOf | app.py:348-349 | The position found for a question holds that question's name, so `Dashboard.ResponseTable.ColumnOf` (`df[question]`) is the column at that position. |
| Dashboard.ResponseTable.GraphFor | app.py:351-352 | The router's numeric flag never changes the graph: the dtype test already covers numeric columns. |
| Dashboard.ResponseTable.GraphsFor | app.py:348-355 | The router's loop yields one graph per listed column, in listed order. Each is the graph built for that column's question with the column's own numeric flag. |
| Dashboard.ResponseTable.UpdateGraphsBySection | app.py:339-364 | There is one slot per section. Every unselected slot is empty. The selected slot holds one graph per listed column, in listed order, each the graph built for that column's question. |
| Text.Strip | assets/helper_functions.py:69 | `str.strip` on Python's whitespace: the result is a slice of the input with only whitespace cut before and after it. It is empty if and only if the input is blank, and otherwise it neither starts nor ends with whitespace. |
| Text.StripUntrimmed | assets/helper_functions.py:69 | A non-empty answer with no whitespace at either end strips to itself. |
| Text.Split | assets/helper_functions.py:69 | `str.split(",")` gives one more piece than there are commas, and no piece contains a comma. |
| Text.SplitNoSeparator | assets/helper_functions.py:69 | An answer without a comma splits into itself alone. |
| Text.JoinSplit | assets/helper_functions.py:69 | Splitting and joining with the same separator gives back the original string. |
| Text.JoinBlank | app.py:223-224 | The space-joined text is blank if and only if every joined answer is blank. |
| Text.BreakSlashesRemovesSlashes | app.py:142 | The title rewrite leaves no "/". Its length grows by three per slash. |
| Text.BreakSlashesIdentity | assets/helper_functions.py:89 | A title without "/" is unchanged. |
| Text.BreakSlashesIsSplitJoin | app.py:151 | The rewrite equals splitting on "/" and joining with "<br>", as Python's `replace` does. |
| Text.StrLessTotal | assets/helper_functions.py:70 | Code-point string order is total on distinct strings. |
| Text.StrLessTransitive | assets/helper_functions.py:70 | Code-point string order is transitive. |
| Text.SortStringsSorted | assets/helper_functions.py:70 | `sorted` of distinct strings is strictly increasing and a permutation of its input. |
| Seqs.Distinct | assets/helper_functions.py:70 | `unique` has no duplicates and holds exactly the values of its input. |
| Seqs.Tally | assets/helper_functions.py:71-74 | One row per label, in label order, with the label's number of occurrences. |
| Seqs.ValueCountsSum | assets/helper_functions.py:100 | `Seqs.ValueCounts` (`value_counts`) has distinct labels and counts of at least one, and the counts sum to the number of values. |
| Seqs.SumCountsIsCountIn | app.py:176-177 | Summing the counts of distinct labels counts each value at most once. |
| Helpers.YesNoColors | assets/helper_functions.py:10-14 | The green/red Yes/No map is chosen if and only if both "Yes" and "No" occur and no other answer does. |
| Helpers.YesNoValues | assets/helper_functions.py:10-13 | The set of non-missing answers equals {"Yes", "No"} if and only if both occur and every answer is one of them. |
| Helpers.OnlyYesIsNotYesNo | assets/helper_functions.py:13 | A column answered only "Yes" does not get the Yes/No colours. |
| Helpers.RankSortValueCounts | assets/helper_functions.py:100-104 | `Helpers.RankSort` of the value counts (the categorical sort) gives a ranked pie: the named rows follow the category order and come before all unnamed rows. Each named row carries its label's count, every observed ordered label appears, and every count is at least one. The trailing unnamed rows are exactly one row per distinct observed label outside the order, each with that label's count. |
| Helpers.UnrankedIsUnnamed | assets/helper_functions.py:103-104 | The rows whose label is not a category become one unnamed row per such label, with its count. |
| Helpers.OutsideLabels | assets/helper_functions.py:103 | The labels that are not categories are distinct and are exactly the observed labels outside the order. |
| Helpers.RankSortSum | assets/helper_functions.py:38-42 | The categorical sort loses no answers: the row counts sum to the number of values counted. |
| Helpers.NumericPie | assets/helper_functions.py:36-42 | Every cell is counted once, and the rows form a ranked pie over the answers mapped with "Unknown" fill: named rows in category order, then one unnamed row per distinct label outside the order, each with its count. No zero-count rows are added. |
| Helpers.UnknownBucket | assets/helper_functions.py:36 | In `Helpers.MapOrUnknown` (`map(value_mapping).fillna("Unknown")`), when "Unknown" is not itself a mapped label, its count is the number of missing or unmapped cells. |
| Helpers.OrderedPie | assets/helper_functions.py:100-104 | The rows form a ranked pie over the non-missing answers: named rows in category order, then one unnamed row per distinct label outside the order, each with its count. They count at most every row of the column. |
| Helpers.AgreementColor | assets/helper_functions.py:107-110 | Exactly the four agreement answers have a colour. "I fully disagree" is red and "I fully agree" is green. The four colours are distinct. |
| Helpers.Pieces | assets/helper_functions.py:69 | An answer gives one piece more than it has commas. Piece k is the strip of the k-th comma-separated part and holds no comma. |
| Helpers.ExampleTrailingComma | assets/helper_functions.py:69 | The answer "A," gives the pieces "A" and "": an empty token is counted like any other. |
| Helpers.TokensLength | assets/helper_functions.py:69 | `Helpers.Tokens`, the exploded and stripped answers, number the non-missing cells plus the commas in them (`Helpers.CommaTotal`): one token per answered cell and one more per comma. |
| Helpers.MultiSelectLabels | assets/helper_functions.py:69-72 | The bar labels are strictly increasing in code-point order and are exactly the distinct stripped pieces. |
| Helpers.MultiSelectCountsProps | assets/helper_functions.py:71-74 | Each bar of `Helpers.MultiSelectCounts` counts its piece's occurrences, at least one each. The bars sum to the number of pieces, which is at least the number of answered cells. The sum equals the number of answered cells if and only if no answer holds a comma (`Helpers.SingleChoices`). |
| Helpers.NoCommas | assets/helper_functions.py:69 | The answered cells hold no comma at all (`Helpers.CommaTotal` is zero) if and only if every answer is a single choice. |
| Helpers.MultiSelectExample | assets/helper_functions.py:68-74 | The answers "A,B", "B", "C" give bars A:1, B:2, C:1. |

## Left out

- Rendering is left out: Plotly figures, Dash components, HTML wrapping, the style dictionaries, `assets/layouts.py`, `sample_colorscale` bar colours and the Blues colour sequence. The graphs carry only their titles and data.
- The plain pie's counting is done inside Plotly from the whole column and is not modelled. `Dashboard.Graph.PieGraph` carries only its title and question.
- Word-cloud generation is left out: stop words, image drawing and PNG/base64 encoding. The model stops at the text handed to the generator.
- CSV loading and pandas dtype inference are left out. The column type is given by the column's constructor. The legend rewrite yields an object column for a non-empty legend, as `Series.map` with a dictionary of string labels does, and a float64 column for an empty one.
- The descending-count order of `value_counts` is not modelled. `Seqs.ValueCounts` keeps first-appearance order. Where the result is reindexed or sorted by category this makes no difference. After the categorical sort the unnamed rows therefore keep first-appearance order, not pandas' order. For example, the values X, Y, Y with an empty category order give (missing, 2), (missing, 1) in pandas but (missing, 1), (missing, 2) in the model.
- Debug `print` calls, `app.run_server` and the tab layout (app.py:272-337) are left out.
- `dashboard/app.py` is not part of this model.
- Helpers.NumericPie and Helpers.OrderedPie: a category order with a repeated label is a precondition (`NoDups`). `pd.Categorical` raises `ValueError` for it.
- Dashboard.ResponseTable.Valid: duplicate column headers are excluded (`NoDups(names)`). `read_csv` already renames repeated headers ("X", "X.1"), so a loaded table meets this.
- Dashboard.ResponseTable.UpdateGraphsBySection: an unknown section name, a listed column position past the table's end, and a table of at most 34 columns (needed by the plain-pie list) are preconditions. The source raises `KeyError` or `IndexError` for them.
