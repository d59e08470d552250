/**
 * The slice of pandas the data-preparation code relies on: a frame is an
 * ordered list of column names and a list of rows; a missing cell is NaN.
 * Also the choices of train/test split the scripts make.
 */
module Frames {
  import opened Wrappers
  import opened PyText
  import Seqs

  /** A cell; `None` is NaN. */
  type Cell = Option<string>
  /** One row: its cells by column name. */
  datatype Row = Row(cells: map<string, Cell>)

  datatype Frame = Frame(columns: seq<string>, rows: seq<Row>)

  /** The frame with no columns and no rows, `pd.DataFrame()`. */
  const EmptyFrame: Frame := Frame([], [])

  /** `row[c]`; a column the row does not carry reads as NaN. */
  function At(row: Row, c: string): Cell {
    if c in row.cells then row.cells[c] else None
  }

  /** `.fillna('')` on one cell. */
  function FillNa(c: Cell): string {
    c.GetOr("")
  }

  /** `df.empty`: no rows or no columns. */
  predicate Empty(f: Frame) {
    |f.rows| == 0 || |f.columns| == 0
  }

  /** The values of column `c`, row by row. */
  function Column(f: Frame, c: string): (r: seq<Cell>)
    ensures |r| == |f.rows|
    ensures forall i :: 0 <= i < |f.rows| ==> r[i] == At(f.rows[i], c)
  {
    seq(|f.rows|, i requires 0 <= i < |f.rows| => At(f.rows[i], c))
  }

  /** The row with cell `c` set to `v`; every other cell is unchanged. */
  function Set(row: Row, c: string, v: Cell): (r: Row)
    ensures At(r, c) == v
    ensures forall d :: d != c ==> At(r, d) == At(row, d)
  {
    Row(row.cells[c := v])
  }

  /**
   * `df[c] = <value computed from each row>`: column `c` of every row is
   * set, the column is appended when it is new, and nothing else changes.
   */
  function Derive(f: Frame, c: string, value: Row -> Cell): (r: Frame)
    ensures r.columns == if c in f.columns then f.columns else f.columns + [c]
    ensures |r.rows| == |f.rows|
    ensures forall i :: 0 <= i < |f.rows| ==> r.rows[i] == Set(f.rows[i], c, value(f.rows[i]))
  {
    Frame(if c in f.columns then f.columns else f.columns + [c],
          seq(|f.rows|, i requires 0 <= i < |f.rows| => Set(f.rows[i], c, value(f.rows[i]))))
  }

  /** None of the cells named in `subset` is NaN. */
  predicate Complete(row: Row, subset: seq<string>) {
    forall c :: c in subset ==> At(row, c).Some?
  }

  /** `Complete` on `subset`, as the test `dropna` applies to each row. */
  function CompleteOn(subset: seq<string>): Row -> bool {
    (row: Row) => Complete(row, subset)
  }

  /**
   * `df.dropna(subset=subset)`: pandas refuses (KeyError) a subset naming a
   * column the frame does not have; otherwise the rows with a NaN in the
   * subset are dropped and the rest keep their order and multiplicity.
   */
  function DropNa(f: Frame, subset: seq<string>): (r: Result<Frame, string>)
    ensures r.Failure? <==> exists c :: c in subset && c !in f.columns
    ensures r.Success? ==>
      && r.value.columns == f.columns
      && (forall row :: row in r.value.rows <==> row in f.rows && Complete(row, subset))
      && r.value.rows == Seqs.Filter(f.rows, CompleteOn(subset))
  {
    if exists c :: c in subset && c !in f.columns then Failure("KeyError")
    else
      assert forall row :: CompleteOn(subset)(row) == Complete(row, subset);
      Seqs.FilterExactly(f.rows, CompleteOn(subset));
      Success(Frame(f.columns, Seqs.Filter(f.rows, CompleteOn(subset))))
  }

  /** `dropna` keeps each complete row as often as it occurs, and no incomplete one. */
  lemma DropNaCounts(f: Frame, subset: seq<string>)
    requires DropNa(f, subset).Success?
    ensures forall row :: multiset(DropNa(f, subset).value.rows)[row] ==
                          (if Complete(row, subset) then multiset(f.rows)[row] else 0)
  {
    assert forall row :: CompleteOn(subset)(row) == Complete(row, subset);
    Seqs.FilterExactly(f.rows, CompleteOn(subset));
  }

  /** `df[c].str.strip() != ''`: a NaN compares unequal to '' and is kept. */
  predicate NotBlank(row: Row, c: string) {
    At(row, c).None? || Strip(At(row, c).value) != ""
  }

  /** A cell is blank exactly when it holds nothing but whitespace. */
  lemma NotBlankMeans(row: Row, c: string)
    ensures NotBlank(row, c) <==> At(row, c).None? || !AllSpace(At(row, c).value)
  {
  }

  /** `NotBlank` on column `c`, as a row test. */
  function NotBlankOn(c: string): Row -> bool {
    (row: Row) => NotBlank(row, c)
  }

  /**
   * `df = df[df[c].str.strip() != '']`: the rows whose `c` has a
   * non-whitespace character (or is NaN), in their order and multiplicity.
   */
  function DropBlank(f: Frame, c: string): (r: Frame)
    ensures r.columns == f.columns
    ensures forall row :: row in r.rows <==> row in f.rows && NotBlank(row, c)
    ensures r.rows == Seqs.Filter(f.rows, NotBlankOn(c))
  {
    assert forall row :: NotBlankOn(c)(row) == NotBlank(row, c);
    Seqs.FilterExactly(f.rows, NotBlankOn(c));
    Frame(f.columns, Seqs.Filter(f.rows, NotBlankOn(c)))
  }

  /** The blank-text filter keeps each non-blank row as often as it occurs. */
  lemma DropBlankCounts(f: Frame, c: string)
    ensures forall row ::
      multiset(DropBlank(f, c).rows)[row] == (if NotBlank(row, c) then multiset(f.rows)[row] else 0)
  {
    assert forall row :: NotBlankOn(c)(row) == NotBlank(row, c);
    Seqs.FilterExactly(f.rows, NotBlankOn(c));
  }

  /** The row has a `text` cell with a non-whitespace character. */
  predicate HasText(row: Row) {
    At(row, "text").Some? && !AllSpace(At(row, "text").value)
  }

  /**
   * `dropna` on `subset` (which names `text`) followed by the blank-text
   * filter is one order-preserving filter by `keep`, whatever test `keep`
   * is, provided it accepts exactly the rows that pass both.
   */
  lemma DropNaThenBlank(f: Frame, subset: seq<string>, keep: Row -> bool)
    requires DropNa(f, subset).Success?
    requires forall row :: row in f.rows ==> (keep(row) <==> Complete(row, subset) && NotBlank(row, "text"))
    ensures DropBlank(DropNa(f, subset).value, "text").rows == Seqs.Filter(f.rows, keep)
  {
    Seqs.FilterTwice(f.rows, CompleteOn(subset), NotBlankOn("text"), keep);
  }

  /** `any(keyword in col.lower() for keyword in keywords)`. */
  predicate MentionsAny(col: string, keywords: seq<string>) {
    exists k :: k in keywords && Contains(Lower(col), k)
  }

  /** The columns whose lower-cased name contains one of `keywords`, in column order. */
  function KeywordColumns(columns: seq<string>, keywords: seq<string>): (r: seq<string>)
    ensures forall c :: c in r <==> c in columns && MentionsAny(c, keywords)
    ensures r != [] ==>
      exists i :: 0 <= i < |columns| && r[0] == columns[i] && MentionsAny(columns[i], keywords) &&
                  (forall j :: 0 <= j < i ==> !MentionsAny(columns[j], keywords))
  {
    var p := (c: string) => MentionsAny(c, keywords);
    Seqs.FilterExactly(columns, p);
    Seqs.FilterHead(columns, p);
    Seqs.Filter(columns, p)
  }

  /**
   * `series.nunique() > 1` on the label-encoded column: two rows carry
   * different values (the encoder gives equal values equal labels, and
   * gives NaN a label of its own).
   */
  function TwoDistinct(values: seq<Cell>): (b: bool)
    ensures b <==> exists i, j :: 0 <= i < |values| && 0 <= j < |values| && values[i] != values[j]
  {
    if |values| == 0 then false
    else
      var b := exists k :: 0 <= k < |values| && values[k] != values[0];
      assert (exists i, j :: 0 <= i < |values| && 0 <= j < |values| && values[i] != values[j]) ==> b by {
        if exists i, j :: 0 <= i < |values| && 0 <= j < |values| && values[i] != values[j] {
          var i, j :| 0 <= i < |values| && 0 <= j < |values| && values[i] != values[j];
          if values[i] == values[0] { assert values[j] != values[0]; }
        }
      }
      b
  }

  /** The label column(s) a stratified split is asked to preserve. */
  datatype Stratify = OnBoth | OnType | OnUrgency

  /**
   * How the scripts divide their rows: the whole frame serves as both
   * training and test set, a stratified 80/20 split, or an unstratified
   * 80/20 split.
   */
  datatype Split = WholeAsBoth | Stratified(on: Stratify) | Plain

  /** The type labels come from `category`, the urgency labels from `urgency`. */
  function Types(f: Frame): seq<Cell> {
    Column(f, "category")
  }

  function Urgencies(f: Frame): seq<Cell> {
    Column(f, "urgency")
  }

  /** Every label column the stratification names has at least two values. */
  predicate Diverse(f: Frame, on: Stratify) {
    match on
    case OnBoth => TwoDistinct(Types(f)) && TwoDistinct(Urgencies(f))
    case OnType => TwoDistinct(Types(f))
    case OnUrgency => TwoDistinct(Urgencies(f))
  }

  /** The rows of a derived frame are the rows of the original, each with `c` set. */
  lemma DeriveMembers(f: Frame, c: string, value: Row -> Cell)
    ensures forall row :: row in Derive(f, c, value).rows <==>
      exists x :: x in f.rows && row == Set(x, c, value(x))
  {
    var d := Derive(f, c, value);
    forall row ensures row in d.rows <==> exists x :: x in f.rows && row == Set(x, c, value(x)) {
      if row in d.rows {
        var i :| 0 <= i < |d.rows| && d.rows[i] == row;
        assert f.rows[i] in f.rows;
      }
      if exists x :: x in f.rows && row == Set(x, c, value(x)) {
        var x :| x in f.rows && row == Set(x, c, value(x));
        var i :| 0 <= i < |f.rows| && f.rows[i] == x;
        assert d.rows[i] == row;
      }
    }
  }
}
