/** app/reports/page.tsx: the CSV text the export button downloads. The locale-dependent
    `toLocaleDateString` and JavaScript's number-to-text conversion are given as functions;
    the download itself (Blob, object URL, anchor click) is not part of the model. */
module ReportsPage {
  import opened FinanceTypes
  import opened Text

  const Header: seq<string> := ["Date", "Type", "Category", "Amount", "Description"]

  /** How the page renders the pieces it does not compute itself. */
  datatype Renderers = Renderers(dateText: Instant -> string, amountText: real -> string)

  /** The five cells of a transaction's row. */
  function Cells(t: Transaction, render: Renderers): (r: seq<string>)
    ensures |r| == |Header|
    ensures r[0] == render.dateText(t.date) && r[3] == render.amountText(t.amount)
    ensures r[1] == TxTypeText(t.kind) && r[2] == t.category && r[4] == t.description
  {
    [render.dateText(t.date), TxTypeText(t.kind), t.category, render.amountText(t.amount), t.description]
  }

  /** `row.join(",")`. */
  function Line(cells: seq<string>): string {
    Join(cells, ',')
  }

  /** One line per transaction, in list order. */
  function Rows(ts: seq<Transaction>, render: Renderers): (r: seq<string>)
    ensures |r| == |ts|
    ensures forall i :: 0 <= i < |ts| ==> r[i] == Line(Cells(ts[i], render))
  {
    seq(|ts|, i requires 0 <= i < |ts| => Line(Cells(ts[i], render)))
  }

  /** The lines of the file: the header, then the rows. */
  function Lines(ts: seq<Transaction>, render: Renderers): (r: seq<string>)
    ensures |r| == |ts| + 1 && r[0] == Line(Header)
    ensures r[1..] == Rows(ts, render)
  {
    [Line(Header)] + Rows(ts, render)
  }

  /** `csv`: the lines joined by newlines. The header always comes first, and with no data
      it is the whole file. */
  function Csv(data: Option<FinancialData>, render: Renderers): (s: string)
    ensures |Line(Header)| <= |s| && s[..|Line(Header)|] == Line(Header)
    ensures data.None? ==> s == Line(Header)
  {
    var ls := Lines(if data.Some? then data.value.transactions else [], render);
    JoinStartsWithFirst(ls, '\n');
    assert data.None? ==> ls == [Line(Header)];
    Join(ls, '\n')
  }

  /** No newline inside any cell the page writes for `ts`. */
  predicate NoNewlineInCells(ts: seq<Transaction>, render: Renderers) {
    forall i, k :: 0 <= i < |ts| && 0 <= k < |Header| ==> '\n' !in Cells(ts[i], render)[k]
  }

  /** Without data the file is the header line alone, and its comma-separated cells are the
      five column names. */
  lemma CsvWithoutData(render: Renderers)
    ensures Csv(None, render) == Line(Header)
    ensures Split(Csv(None, render), ',') == Header
  {
    assert Lines([], render) == [Line(Header)];
    HeaderSplits();
  }

  lemma HeaderSplits()
    ensures Split(Line(Header), ',') == Header
  {
    forall k | 0 <= k < |Header|
      ensures ',' !in Header[k]
    {
    }
    SplitJoin(Header, ',');
  }

  /** No line of the file holds a newline when no cell does. */
  lemma LinesAvoidNewline(ts: seq<Transaction>, render: Renderers)
    requires NoNewlineInCells(ts, render)
    ensures forall j :: 0 <= j < |ts| + 1 ==> '\n' !in Lines(ts, render)[j]
  {
    var ls := Lines(ts, render);
    forall j | 0 <= j < |ls|
      ensures '\n' !in ls[j]
    {
      if j == 0 {
        JoinAvoids(Header, ',', '\n');
      } else {
        var cells := Cells(ts[j - 1], render);
        forall k | 0 <= k < |cells|
          ensures '\n' !in cells[k]
        {
          assert '\n' !in Cells(ts[j - 1], render)[k];
        }
        JoinAvoids(cells, ',', '\n');
      }
    }
  }

  /** When no cell holds a newline, splitting the file at newlines gives back the header and
      exactly one line per transaction, in order; there is no trailing newline. */
  lemma CsvLines(d: FinancialData, render: Renderers)
    requires NoNewlineInCells(d.transactions, render)
    ensures Split(Csv(Some(d), render), '\n') == Lines(d.transactions, render)
    ensures |Split(Csv(Some(d), render), '\n')| == |d.transactions| + 1
  {
    var ls := Lines(d.transactions, render);
    LinesAvoidNewline(d.transactions, render);
    assert Csv(Some(d), render) == Join(ls, '\n');
    SplitJoin(ls, '\n');
  }

  /** The file ends with the last transaction's line: there is no trailing newline. */
  lemma CsvEndsWithLastLine(d: FinancialData, render: Renderers)
    requires |d.transactions| > 0
    ensures var s := Csv(Some(d), render);
      var last := Line(Cells(d.transactions[|d.transactions| - 1], render));
      |last| <= |s| && s[|s| - |last|..] == last
  {
    var ls := Lines(d.transactions, render);
    assert Csv(Some(d), render) == Join(ls, '\n');
    assert ls[|ls| - 1] == Line(Cells(d.transactions[|d.transactions| - 1], render));
    JoinEndsWithLast(ls, '\n');
  }

  /** Cells are not quoted: a comma in a description splits its line into more than the
      five columns of the header. */
  lemma CommaInDescriptionAddsColumns(t: Transaction, render: Renderers)
    requires ',' in t.description
    ensures |Split(Line(Cells(t, render)), ',')| > |Header|
  {
    SplitJoinCount(Cells(t, render), ',', 4);
  }
}
