/**
 The fixed tables of the calculator: the two unit systems, the six consumption
 categories in their display order, the emission factor of every category in
 every unit system, the severity ceilings and the unit labels.
 */
module Catalog {

  datatype UnitSystem = Metric | Imperial

  /** The unit system selected by the "Use Imperial Units" switch. */
  function SystemOf(imperialSwitch: bool): (u: UnitSystem)
    ensures u == Imperial <==> imperialSwitch
  {
    if imperialSwitch then Imperial else Metric
  }

  /** The name under which a unit system is stored in a saved session. */
  function SystemName(u: UnitSystem): string
  {
    match u
    case Metric => "metric"
    case Imperial => "imperial"
  }

  datatype Category = Electricity | Gas | Water | Kilometers | Flights | Food

  /** The order in which the input form lists its fields; every per-category list follows it. */
  const Categories: seq<Category> := [Electricity, Gas, Water, Kilometers, Flights, Food]

  /** Where a category sits in `Categories`: every category is listed, and exactly once. */
  function Position(c: Category): (i: nat)
    ensures i < |Categories| && Categories[i] == c
    ensures forall j :: 0 <= j < |Categories| && Categories[j] == c ==> j == i
  {
    match c
    case Electricity => 0
    case Gas => 1
    case Water => 2
    case Kilometers => 3
    case Flights => 4
    case Food => 5
  }

  /** The key of a category's field in the input form and in a saved session. */
  function Key(c: Category): string
  {
    match c
    case Electricity => "electricity"
    case Gas => "gas"
    case Water => "water"
    case Kilometers => "kilometers"
    case Flights => "flights"
    case Food => "food"
  }

  /** The name a category is shown under in the breakdown and in the CSV report. */
  function Label(c: Category): string
  {
    match c
    case Electricity => "Electricity"
    case Gas => "Gas"
    case Water => "Water"
    case Kilometers => "Driving"
    case Flights => "Flights"
    case Food => "Food"
  }

  /** Emission per unit of input: kg CO2 in the metric table, lbs CO2 in the imperial one. */
  function Factor(u: UnitSystem, c: Category): (f: real)
    ensures f > 0.0
  {
    match u
    case Metric =>
      (match c
       case Electricity => 0.92
       case Gas => 5.3
       case Water => 0.00007
       case Kilometers => 0.245
       case Flights => 900.0
       case Food => 2.5)
    case Imperial =>
      (match c
       case Electricity => 0.42
       case Gas => 5.3
       case Water => 0.00026
       case Kilometers => 0.394
       case Flights => 900.0
       case Food => 1.13)
  }

  /** The total at which the severity bar is full. */
  function Ceiling(u: UnitSystem): (c: real)
    ensures c > 0.0
  {
    match u
    case Metric => 5000.0
    case Imperial => 11000.0
  }

  /** The unit suffix shown in a category's input field. */
  function Suffix(u: UnitSystem, c: Category): string
  {
    match c
    case Electricity => "kWh"
    case Gas => "therms"
    case Water => if u == Imperial then "gallons" else "liters"
    case Kilometers => if u == Imperial then "miles" else "km"
    case Flights => "flights"
    case Food => if u == Imperial then "lbs" else "kg"
  }

  /** The mass unit of the results: the CSV header shows it in parentheses. */
  function MassUnit(u: UnitSystem): string
  {
    match u
    case Metric => "kg"
    case Imperial => "lbs"
  }

  /** The unit label written after every figure on screen. */
  function ResultUnit(u: UnitSystem): (s: string)
    ensures s == MassUnit(u) + " CO2/month"
  {
    if u == Imperial then "lbs CO2/month" else "kg CO2/month"
  }

  /** The six category keys are pairwise different. */
  lemma KeysDistinct(c: Category, d: Category)
    ensures Key(c) == Key(d) <==> c == d
  {
  }

  /**
   The imperial table re-uses the metric factor for gas and flights and for no
   other category, although imperial figures are reported in lbs.
   */
  lemma SharedFactors(c: Category)
    ensures Factor(Metric, c) == Factor(Imperial, c) <==> c == Gas || c == Flights
  {
  }

  /**
   Switching units relabels only the water, driving and food fields.
   Electricity keeps its suffix although its factor changes; gas and flights
   keep both their suffix and their factor.
   */
  lemma RelabelledFields(c: Category)
    ensures Suffix(Metric, c) != Suffix(Imperial, c) <==> c == Water || c == Kilometers || c == Food
  {
  }
}
