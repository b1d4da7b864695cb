/**
 The Export CSV button: the same footprints and total as the on-screen
 calculation, written as a header row, one row per category and a Total row.
 Unlike the calculation, the export does not reject negative inputs.
 */
module CsvExport {
  import opened Results
  import opened Catalog
  import opened Footprint

  /** A CSV cell: text, or a figure that the file shows with two decimals. */
  datatype Cell = Text(text: string) | Figure(amount: real)

  /** A CSV row of two cells: a heading and its value. */
  datatype Row = Row(heading: string, cell: Cell)

  /** The header row, naming the mass unit of the figures. */
  function Header(u: UnitSystem): Row
  {
    Row("Category", Text("CO2 (" + MassUnit(u) + ")"))
  }

  /** The rows of a report: the header, one row per category in `Categories` order, then the total. */
  function Rows(u: UnitSystem, footprints: seq<real>, total: real): (rows: seq<Row>)
    requires |footprints| == |Categories|
    ensures |rows| == |Categories| + 2
    ensures rows[0] == Header(u)
    ensures forall c :: rows[Position(c) + 1] == Row(Label(c), Figure(footprints[Position(c)]))
    ensures rows[|rows| - 1] == Row("Total", Figure(total))
  {
    [Header(u)]
    + seq(|Categories|, i requires 0 <= i < |Categories| => Row(Label(Categories[i]), Figure(footprints[i])))
    + [Row("Total", Figure(total))]
  }

  /** Handles the Export CSV button; a field that is not a number makes the export fail. */
  function Export(form: Form, float: Parser): (r: Result<seq<Row>, Rejection>)
    requires form.WellFormed()
    ensures r.Success? <==> Readable(form, float)
    ensures r.Failure? ==> r.error == InvalidNumber
    ensures r.Success? ==> |r.value| == |Categories| + 2 && r.value[0] == Header(form.Units())
    ensures r.Success? ==>
              forall c :: r.value[Position(c) + 1]
                          == Row(Label(c), Figure(Emission(form.Units(), c, Amount(form, float, c))))
    ensures r.Success? ==>
              exists fps: seq<real> ::
                |fps| == |Categories|
                && (forall c :: fps[Position(c)] == Emission(form.Units(), c, Amount(form, float, c)))
                && r.value[|r.value| - 1] == Row("Total", Figure(Sum(fps)))
  {
    match ReadAll(form.fields, float)
    case None => Failure(InvalidNumber)
    case Some(values) =>
      var u := form.Units();
      var fps := Footprints(values, u);
      assert forall c :: values[Position(c)] == Amount(form, float, c);
      Success(Rows(u, fps, Sum(fps)))
  }

  /** Every category, and the total, lands on the same row whatever the input. */
  lemma RowOrder(form: Form, float: Parser)
    requires form.WellFormed() && Export(form, float).Success?
    ensures |Export(form, float).value| == 8
    ensures forall i :: 0 <= i < 8 ==>
              Export(form, float).value[i].heading
              == ["Category", "Electricity", "Gas", "Water", "Driving", "Flights", "Food", "Total"][i]
  {
    var rows := Export(form, float).value;
    forall i | 1 <= i < 7
      ensures rows[i].heading == ["Category", "Electricity", "Gas", "Water", "Driving", "Flights", "Food", "Total"][i]
    {
      assert rows[Position(Categories[i - 1]) + 1].heading == Label(Categories[i - 1]);
    }
  }

  /** Whenever the calculation accepts a form, the export writes exactly its footprints and total. */
  lemma ExportMatchesCalculation(form: Form, float: Parser)
    requires form.WellFormed() && Calculate(form, float).Success?
    ensures Export(form, float).Success?
    ensures Export(form, float).value ==
              Rows(form.Units(), Calculate(form, float).value.footprints, Calculate(form, float).value.total)
  {
  }

  /** The export and the on-screen breakdown list the same categories with the same figures in the same order. */
  lemma ExportMatchesBreakdown(form: Form, float: Parser)
    requires form.WellFormed() && Calculate(form, float).Success?
    ensures forall i :: 0 <= i < |Categories| ==>
              Export(form, float).value[i + 1].heading == Breakdown(Calculate(form, float).value)[i].category
              && Export(form, float).value[i + 1].cell == Figure(Breakdown(Calculate(form, float).value)[i].amount)
  {
    ExportMatchesCalculation(form, float);
    var rep := Calculate(form, float).value;
    var rows := Export(form, float).value;
    var lines := Breakdown(rep);
    forall i | 0 <= i < |Categories|
      ensures rows[i + 1].heading == lines[i].category && rows[i + 1].cell == Figure(lines[i].amount)
    {
      var c := Categories[i];
      assert Position(c) == i;
    }
  }

  /**
   A form the calculation rejects for a negative input is still exported, and
   the export then carries a negative footprint.
   */
  lemma ExportSkipsNegativeGuard(form: Form, float: Parser)
    requires form.WellFormed() && Calculate(form, float) == Failure(NegativeValue)
    ensures Export(form, float).Success?
    ensures exists c :: Export(form, float).value[Position(c) + 1].cell.amount < 0.0
  {
    var c :| Amount(form, float, c) < 0.0;
    assert Export(form, float).value[Position(c) + 1].cell.amount == Emission(form.Units(), c, Amount(form, float, c));
  }
}
