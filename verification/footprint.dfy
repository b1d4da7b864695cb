/**
 The footprint calculation behind the Calculate button: the six raw fields are
 read as numbers (a blank field reads as 0), the whole form is rejected when a
 field is not a number or is negative, and otherwise every category's input is
 multiplied by its factor in the selected unit system, the six products are
 summed and the total is turned into a severity ratio clamped to 1.
 */
module Footprint {
  import opened Results
  import opened Catalog

  /** The state of the input form: the raw text of the six fields in `Categories` order and the unit switch. */
  datatype Form = Form(fields: seq<string>, imperial: bool) {

    predicate WellFormed()
    {
      |fields| == |Categories|
    }

    function Units(): UnitSystem
    {
      SystemOf(imperial)
    }
  }

  /** The number a non-blank text denotes, or None when the text is not a number. */
  type Parser = string -> Option<real>

  /** Why a calculation produced no result. */
  datatype Rejection = InvalidNumber | NegativeValue

  /** The figures the calculation reports. */
  datatype Report = Report(units: UnitSystem, footprints: seq<real>, total: real, severity: real)

  /** One line of the on-screen breakdown: a category label, its footprint and the unit label. */
  datatype Line = Line(category: string, amount: real, unit: string)

  /** The form after the unit switch changed: relabelled fields and a fresh calculation. */
  datatype Toggled = Toggled(form: Form, suffixes: seq<string>, outcome: Result<Report, Rejection>)

  /** A form with every field blank. */
  const BlankFields: seq<string> := ["", "", "", "", "", ""]

  /** What one field reads as: blank text counts as zero, any other text goes through the parser. */
  function ReadField(raw: string, float: Parser): Option<real>
  {
    if raw == "" then Some(0.0) else float(raw)
  }

  /** True when every field reads as a number. */
  ghost predicate Readable(form: Form, float: Parser)
  {
    forall i :: 0 <= i < |form.fields| ==> ReadField(form.fields[i], float).Some?
  }

  /** The number a readable field reads as. */
  ghost function Amount(form: Form, float: Parser, c: Category): real
    requires form.WellFormed() && Readable(form, float)
  {
    ReadField(form.fields[Position(c)], float).value
  }

  /** Reads every field; fails as soon as one field is not a number. */
  function ReadAll(fields: seq<string>, float: Parser): (r: Option<seq<real>>)
    ensures r.Some? <==> forall i :: 0 <= i < |fields| ==> ReadField(fields[i], float).Some?
    ensures r.Some? ==> |r.value| == |fields|
    ensures r.Some? ==> forall i :: 0 <= i < |fields| ==> ReadField(fields[i], float) == Some(r.value[i])
  {
    if fields == [] then Some([])
    else
      match ReadField(fields[0], float)
      case None => None
      case Some(v) =>
        match ReadAll(fields[1..], float)
        case None => None
        case Some(rest) =>
          assert forall i :: 1 <= i < |fields| ==> fields[i] == fields[1..][i - 1];
          Some([v] + rest)
  }

  /** The footprint of an amount of one category: the amount times the category's factor. */
  function Emission(u: UnitSystem, c: Category, amount: real): (e: real)
    ensures e < 0.0 <==> amount < 0.0
    ensures e == 0.0 <==> amount == 0.0
  {
    amount * Factor(u, c)
  }

  /** The footprint of every category: its input times the factor of the same category. */
  function Footprints(values: seq<real>, u: UnitSystem): (fs: seq<real>)
    requires |values| == |Categories|
    ensures |fs| == |Categories|
    ensures forall c :: fs[Position(c)] == Emission(u, c, values[Position(c)])
  {
    seq(|Categories|, i requires 0 <= i < |Categories| => Emission(u, Categories[i], values[i]))
  }

  /** The sum of a list of figures, added from the left as Python's `sum` does. */
  function Sum(xs: seq<real>): real
  {
    if xs == [] then 0.0 else Sum(xs[..|xs| - 1]) + xs[|xs| - 1]
  }

  /** The severity ratio: the total as a fraction of the unit system's ceiling, never above 1. */
  function Severity(total: real, u: UnitSystem): (s: real)
    ensures s <= 1.0
    ensures total >= 0.0 ==> s >= 0.0
    ensures s == 1.0 <==> total >= Ceiling(u)
    ensures s < 1.0 ==> s * Ceiling(u) == total
  {
    var ratio := total / Ceiling(u);
    if ratio <= 1.0 then ratio else 1.0
  }

  /** Handles the Calculate button. */
  function Calculate(form: Form, float: Parser): (r: Result<Report, Rejection>)
    requires form.WellFormed()
    ensures r == Failure(InvalidNumber) <==> !Readable(form, float)
    ensures r == Failure(NegativeValue) <==>
              Readable(form, float) && exists c :: Amount(form, float, c) < 0.0
    ensures r.Success? <==> Readable(form, float) && forall c :: Amount(form, float, c) >= 0.0
    ensures r.Success? ==> r.value.units == form.Units()
    ensures r.Success? ==> |r.value.footprints| == |Categories|
    ensures r.Success? ==>
              forall c :: r.value.footprints[Position(c)] == Emission(form.Units(), c, Amount(form, float, c))
    ensures r.Success? ==> r.value.total == Sum(r.value.footprints)
    ensures r.Success? ==> r.value.severity == Severity(r.value.total, form.Units())
  {
    match ReadAll(form.fields, float)
    case None => Failure(InvalidNumber)
    case Some(values) =>
      if exists i :: 0 <= i < |values| && values[i] < 0.0 then
        assert exists c :: Amount(form, float, c) < 0.0 by {
          var i :| 0 <= i < |values| && values[i] < 0.0;
          assert Amount(form, float, Categories[i]) == values[i];
        }
        Failure(NegativeValue)
      else
        assert forall c :: Amount(form, float, c) >= 0.0 by {
          forall c ensures Amount(form, float, c) >= 0.0 {
            assert Amount(form, float, c) == values[Position(c)];
          }
        }
        var u := form.Units();
        var fps := Footprints(values, u);
        var total := Sum(fps);
        Success(Report(u, fps, total, Severity(total, u)))
  }

  /** The lines listed under the total on screen, one per category in `Categories` order. */
  function Breakdown(rep: Report): (lines: seq<Line>)
    requires |rep.footprints| == |Categories|
    ensures |lines| == |Categories|
    ensures forall c :: lines[Position(c)] == Line(Label(c), rep.footprints[Position(c)], ResultUnit(rep.units))
  {
    seq(|Categories|, i requires 0 <= i < |Categories| =>
      Line(Label(Categories[i]), rep.footprints[i], ResultUnit(rep.units)))
  }

  /** The field suffixes of a unit system, in `Categories` order. */
  function Suffixes(u: UnitSystem): (s: seq<string>)
    ensures |s| == |Categories|
    ensures forall c :: s[Position(c)] == Suffix(u, c)
  {
    seq(|Categories|, i requires 0 <= i < |Categories| => Suffix(u, Categories[i]))
  }

  /**
   Handles a change of the unit switch: relabel the fields, then recalculate
   with the new table. The inputs, and so the acceptance verdict and the
   rejection reason, stay as they were; only the factors and suffixes change.
   */
  function ToggleUnits(form: Form, on: bool, float: Parser): (t: Toggled)
    requires form.WellFormed()
    ensures t.form.fields == form.fields && t.form.imperial == on
    ensures t.suffixes == Suffixes(SystemOf(on))
    ensures |t.suffixes| == |Categories| && forall c :: t.suffixes[Position(c)] == Suffix(SystemOf(on), c)
    ensures t.outcome == Calculate(t.form, float)
    ensures t.outcome.Failure? <==> Calculate(form, float).Failure?
    ensures t.outcome.Failure? ==> t.outcome.error == Calculate(form, float).error
    ensures t.outcome.Success? ==> t.outcome.value.units == SystemOf(on)
    ensures t.outcome.Success? ==>
              forall c :: t.outcome.value.footprints[Position(c)] == Emission(SystemOf(on), c, Amount(form, float, c))
  {
    var switched := form.(imperial := on);
    assert Readable(switched, float) <==> Readable(form, float);
    assert Readable(form, float) ==> forall c :: Amount(switched, float, c) == Amount(form, float, c);
    Toggled(switched, Suffixes(SystemOf(on)), Calculate(switched, float))
  }

  // Properties of the calculation

  /** A sum of non-negative figures is non-negative. */
  lemma {:induction false} SumNonNegative(xs: seq<real>)
    requires forall i :: 0 <= i < |xs| ==> xs[i] >= 0.0
    ensures Sum(xs) >= 0.0
  {
    if xs != [] {
      SumNonNegative(xs[..|xs| - 1]);
    }
  }

  /** A sum of zeros is zero. */
  lemma {:induction false} SumOfZeros(xs: seq<real>)
    requires forall i :: 0 <= i < |xs| ==> xs[i] == 0.0
    ensures Sum(xs) == 0.0
  {
    if xs != [] {
      SumOfZeros(xs[..|xs| - 1]);
    }
  }

  /** A six-figure list sums to its six figures added in order. */
  lemma SumOfSix(xs: seq<real>)
    requires |xs| == 6
    ensures Sum(xs) == xs[0] + xs[1] + xs[2] + xs[3] + xs[4] + xs[5]
  {
    var p5, p4, p3, p2, p1 := xs[..5], xs[..4], xs[..3], xs[..2], xs[..1];
    assert Sum(p1) == xs[0] by { assert p1[..0] == []; }
    assert Sum(p2) == Sum(p1) + xs[1] by { assert p2[..1] == p1; }
    assert Sum(p3) == Sum(p2) + xs[2] by { assert p3[..2] == p2; }
    assert Sum(p4) == Sum(p3) + xs[3] by { assert p4[..3] == p3; }
    assert Sum(p5) == Sum(p4) + xs[4] by { assert p5[..4] == p4; }
    assert Sum(xs) == Sum(p5) + xs[5];
  }

  /** The sum of the footprints is the sum of the inputs weighted by the factor table, in field order. */
  lemma WeightedSum(values: seq<real>, u: UnitSystem)
    requires |values| == |Categories|
    ensures Sum(Footprints(values, u)) ==
              values[0] * Factor(u, Electricity) + values[1] * Factor(u, Gas) + values[2] * Factor(u, Water)
              + values[3] * Factor(u, Kilometers) + values[4] * Factor(u, Flights) + values[5] * Factor(u, Food)
  {
    var fps := Footprints(values, u);
    SumOfSix(fps);
    assert Position(Electricity) == 0 && Position(Gas) == 1 && Position(Water) == 2;
    assert Position(Kilometers) == 3 && Position(Flights) == 4 && Position(Food) == 5;
  }

  /** The total of an accepted form, written out category by category with keyed factors. */
  lemma TotalByCategory(form: Form, float: Parser)
    requires form.WellFormed() && Calculate(form, float).Success?
    ensures Calculate(form, float).value.total ==
              Emission(form.Units(), Electricity, Amount(form, float, Electricity))
              + Emission(form.Units(), Gas, Amount(form, float, Gas))
              + Emission(form.Units(), Water, Amount(form, float, Water))
              + Emission(form.Units(), Kilometers, Amount(form, float, Kilometers))
              + Emission(form.Units(), Flights, Amount(form, float, Flights))
              + Emission(form.Units(), Food, Amount(form, float, Food))
  {
    var fps := Calculate(form, float).value.footprints;
    SumOfSix(fps);
    assert Position(Electricity) == 0 && Position(Gas) == 1 && Position(Water) == 2;
    assert Position(Kilometers) == 3 && Position(Flights) == 4 && Position(Food) == 5;
  }

  /** Every accepted form has a non-negative total and a severity between 0 and 1. */
  lemma AcceptedBounds(form: Form, float: Parser)
    requires form.WellFormed() && Calculate(form, float).Success?
    ensures Calculate(form, float).value.total >= 0.0
    ensures 0.0 <= Calculate(form, float).value.severity <= 1.0
    ensures Calculate(form, float).value.severity == 1.0 <==>
              Calculate(form, float).value.total >= Ceiling(form.Units())
  {
    var rep := Calculate(form, float).value;
    forall i | 0 <= i < |rep.footprints|
      ensures rep.footprints[i] >= 0.0
    {
      var c := Categories[i];
      assert rep.footprints[Position(c)] == Emission(form.Units(), c, Amount(form, float, c));
    }
    SumNonNegative(rep.footprints);
  }

  /** A form whose every field reads as zero is accepted with total 0 and severity 0, in either unit system. */
  lemma ZeroFormScoresZero(form: Form, float: Parser)
    requires form.WellFormed()
    requires forall i :: 0 <= i < |form.fields| ==> ReadField(form.fields[i], float) == Some(0.0)
    ensures Calculate(form, float).Success?
    ensures Calculate(form, float).value.total == 0.0
    ensures Calculate(form, float).value.severity == 0.0
  {
    assert forall c :: Amount(form, float, c) == 0.0;
    var rep := Calculate(form, float).value;
    forall i | 0 <= i < |rep.footprints|
      ensures rep.footprints[i] == 0.0
    {
      var c := Categories[i];
      assert rep.footprints[Position(c)] == Emission(form.Units(), c, Amount(form, float, c));
    }
    SumOfZeros(rep.footprints);
  }

  /** The blank form is accepted with total 0 and severity 0, whatever the parser and the unit switch. */
  lemma BlankFormScoresZero(imperial: bool, float: Parser)
    ensures Calculate(Form(BlankFields, imperial), float).Success?
    ensures Calculate(Form(BlankFields, imperial), float).value.total == 0.0
    ensures Calculate(Form(BlankFields, imperial), float).value.severity == 0.0
  {
    ZeroFormScoresZero(Form(BlankFields, imperial), float);
  }

  /** Switching units leaves the gas and flights footprints unchanged, as both tables share their factors. */
  lemma ToggleKeepsSharedFootprints(form: Form, on: bool, float: Parser)
    requires form.WellFormed() && Calculate(form, float).Success?
    ensures ToggleUnits(form, on, float).outcome.Success?
    ensures forall c :: c == Gas || c == Flights ==>
              ToggleUnits(form, on, float).outcome.value.footprints[Position(c)]
              == Calculate(form, float).value.footprints[Position(c)]
  {
    var t := ToggleUnits(form, on, float);
    forall c | c == Gas || c == Flights
      ensures t.outcome.value.footprints[Position(c)] == Calculate(form, float).value.footprints[Position(c)]
    {
      SharedFactors(c);
    }
  }

  /** The figures of the example form, as Python's `float` reads them. */
  function ExampleParser(text: string): Option<real>
  {
    if text == "900" then Some(900.0)
    else if text == "50" then Some(50.0)
    else if text == "9000" then Some(9000.0)
    else if text == "1600" then Some(1600.0)
    else if text == "2" then Some(2.0)
    else if text == "7" then Some(7.0)
    else None
  }

  /**
   A metric example: 900 kWh, 50 therms, 9000 liters, 1600 km, 2 flights and
   7 kg of meat give 828, 265, 0.63, 392, 1800 and 17.5 kg, 3303.13 kg in all
   and a severity of 0.660626.
   */
  lemma MetricExample()
    ensures Calculate(Form(["900", "50", "9000", "1600", "2", "7"], false), ExampleParser)
            == Success(Report(Metric, [828.0, 265.0, 0.63, 392.0, 1800.0, 17.5], 3303.13, 0.660626))
  {
    ExampleReads();
    ExampleTotals();
    assert Severity(3303.13, Metric) == 0.660626;
  }

  /** The example form's fields read as its six figures. */
  lemma ExampleReads()
    ensures ReadAll(["900", "50", "9000", "1600", "2", "7"], ExampleParser)
            == Some([900.0, 50.0, 9000.0, 1600.0, 2.0, 7.0])
  {
    var fields := ["900", "50", "9000", "1600", "2", "7"];
    var values := [900.0, 50.0, 9000.0, 1600.0, 2.0, 7.0];
    assert ReadField(fields[0], ExampleParser) == Some(values[0]);
    assert ReadField(fields[1], ExampleParser) == Some(values[1]);
    assert ReadField(fields[2], ExampleParser) == Some(values[2]);
    assert ReadField(fields[3], ExampleParser) == Some(values[3]);
    assert ReadField(fields[4], ExampleParser) == Some(values[4]);
    assert ReadField(fields[5], ExampleParser) == Some(values[5]);
    var r := ReadAll(fields, ExampleParser);
    assert r.Some?;
    assert r.value == values;
  }

  /** The example figures' metric footprints and their total. */
  lemma ExampleTotals()
    ensures Footprints([900.0, 50.0, 9000.0, 1600.0, 2.0, 7.0], Metric) == [828.0, 265.0, 0.63, 392.0, 1800.0, 17.5]
    ensures Sum([828.0, 265.0, 0.63, 392.0, 1800.0, 17.5]) == 3303.13
  {
    var fps := Footprints([900.0, 50.0, 9000.0, 1600.0, 2.0, 7.0], Metric);
    assert fps[Position(Electricity)] == 828.0;
    assert fps[Position(Gas)] == 265.0;
    assert fps[Position(Water)] == 0.63;
    assert fps[Position(Kilometers)] == 392.0;
    assert fps[Position(Flights)] == 1800.0;
    assert fps[Position(Food)] == 17.5;
    SumOfSix([828.0, 265.0, 0.63, 392.0, 1800.0, 17.5]);
  }
}
