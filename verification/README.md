# Carbon footprint engine

A Dafny model of the calculation core of a desktop carbon-footprint
calculator. The application lets a user type five monthly consumption figures
(electricity, natural gas, water, distance driven, meat) and a yearly number
of flights, and pick
metric or imperial units with a switch. It then shows each category's CO2
footprint, the total and a severity bar, and it can save and load the form and
export a CSV report. In the application all of this sits inside UI event
handlers. The model pulls that logic out into pure functions over exact reals.

Modules, one file each:

- `results.dfy`, module `Results`: `Option` and `Result`.
- `catalog.dfy`, module `Catalog`: the unit systems, the six categories in
  field order, their keys and display labels, the two factor tables, the
  severity ceilings, the field suffixes and the unit labels.
- `footprint.dfy`, module `Footprint`: the form, field reading, the
  Calculate handler (rejection, footprints, total, severity), the on-screen
  breakdown and the unit switch handler, with their properties.
- `export.dfy`, module `CsvExport`: the Export CSV handler as a sequence of
  two-cell rows.
- `session.dfy`, module `Session`: the Save and Load handlers over a record
  of text values.

Conventions of the model:

- The form is the raw text of the six fields in field order, plus the switch.
- The application's `float()` conversion is a parameter
  `float: string -> Option<real>`, applied to non-blank text. `None` is the
  ValueError path. Empty text reads as 0 without calling it, because the
  application converts `value or 0`.
- The clock reading written by Save is a parameter `now`.
- Whether the session file exists is the `Option` given to `Load`.
- Figures are exact reals. The two-decimal formatting of the screen and of
  the CSV file is presentation. A CSV figure is a `Figure(amount)` cell.
- A footprint is `Emission(u, c, amount)`, that is `amount * Factor(u, c)`.

In these places the code behaves in ways a reader might not expect; the model follows the code:

- Every field is converted before any sign check. So a form with a malformed
  field and a negative field is rejected as `InvalidNumber`.
- The severity ratio is `min(total / ceiling, 1.0)`, with no lower clamp. It
  stays non-negative only because negative inputs are rejected first
  (`AcceptedBounds`).
- The CSV export does not reject negative inputs, although the on-screen
  calculation does (`ExportSkipsNegativeGuard`).
- Load treats any `unit_system` value other than `"imperial"` as metric, not
  only a missing one.
- The imperial gas and flights factors (5.3 and 900) equal the metric ones,
  although imperial results are in lbs. They are kept as written
  (`Catalog.SharedFactors`).

## Model

| member | source | states |
|---|---|---|
| Catalog.SystemOf | carbon_calculator.py:108 | the imperial table is selected exactly when the switch is on |
| Catalog.Position | carbon_calculator.py:59-66 | every category has exactly one place in the field order electricity, gas, water, kilometers, flights, food |
| Catalog.KeysDistinct | carbon_calculator.py:59-66 | two categories share a field key only if they are the same category |
| Catalog.Factor | carbon_calculator.py:95-98 | every factor of both tables is positive |
| Catalog.SharedFactors | carbon_calculator.py:95-98 | the two tables agree on gas and flights and differ on every other category |
| Catalog.Ceiling | carbon_calculator.py:121 | both severity ceilings (5000 metric, 11000 imperial) are positive |
| Catalog.ResultUnit | carbon_calculator.py:114 | the on-screen unit label is the mass unit (kg or lbs) followed by " CO2/month" |
| Catalog.RelabelledFields | carbon_calculator.py:172-175 | switching units changes the suffix of water, driving and food and of no other field |
| Footprint.ReadAll | carbon_calculator.py:103 | reading succeeds iff every field reads; a blank field reads as 0; value i is what field i reads as |
| Footprint.Emission | carbon_calculator.py:111 | a footprint is negative iff its amount is, and zero iff its amount is |
| Footprint.Footprints | carbon_calculator.py:111 | the footprint of each category is its own input times the factor of the same category key |
| Footprint.Severity | carbon_calculator.py:121 | severity is at most 1 and non-negative for a non-negative total; it is 1 iff the total reaches the ceiling, and otherwise severity times the ceiling is the total |
| Footprint.Calculate | carbon_calculator.py:103-121 | InvalidNumber iff some field does not read; NegativeValue iff all read and one is negative; otherwise a report with keyed footprints, their sum and the severity of that sum |
| Footprint.SumNonNegative | carbon_calculator.py:112 | a sum of non-negative footprints is non-negative |
| Footprint.SumOfZeros | carbon_calculator.py:112 | a sum of zero footprints is zero |
| Footprint.SumOfSix | carbon_calculator.py:112 | the left-to-right sum of six figures is their plain sum |
| Footprint.WeightedSum | carbon_calculator.py:95-112 | the total of six inputs is each input times its category's factor, added together |
| Footprint.TotalByCategory | carbon_calculator.py:103-112 | an accepted form's total is the sum of each category's amount times its keyed factor |
| Footprint.AcceptedBounds | carbon_calculator.py:104-121 | an accepted form has a non-negative total and a severity in [0, 1] that is 1 iff the total reaches the ceiling |
| Footprint.ZeroFormScoresZero | carbon_calculator.py:103-121 | a form whose fields all read as 0 is accepted with total 0 and severity 0 in either unit system |
| Footprint.BlankFormScoresZero | carbon_calculator.py:103-121 | the all-blank form is accepted with total 0 and severity 0 whatever the switch |
| Footprint.MetricExample | carbon_calculator.py:101-121 | the metric form 900, 50, 9000, 1600, 2, 7 is accepted with footprints 828, 265, 0.63, 392, 1800, 17.5, total 3303.13 and severity 0.660626 |
| Footprint.Breakdown | carbon_calculator.py:110-119 | the on-screen lines pair each category's label with its footprint and unit label, in field order |
| Footprint.Suffixes | carbon_calculator.py:172-178 | each field gets the suffix of its own category in the selected unit system |
| Footprint.ToggleUnits | carbon_calculator.py:171-180 | a unit switch keeps the fields and gives each field its own category's suffix in the new system; acceptance and the rejection reason are unchanged, and each footprint is the same amount times the new table's factor for its own category |
| Footprint.ToggleKeepsSharedFootprints | carbon_calculator.py:96-97 | switching units leaves the gas and flights footprints of an accepted form unchanged |
| CsvExport.Rows | carbon_calculator.py:223-226 | a report becomes a header naming kg or lbs, one row per category label with its figure in field order, and a Total row |
| CsvExport.Export | carbon_calculator.py:213-226 | export succeeds iff every field reads; it writes 8 rows with keyed footprints and a Total row carrying their sum |
| CsvExport.RowOrder | carbon_calculator.py:216-226 | the row headings are always Category, Electricity, Gas, Water, Driving, Flights, Food, Total |
| CsvExport.ExportMatchesCalculation | carbon_calculator.py:211-226 | whenever the calculation accepts a form, the export writes exactly its footprints and total |
| CsvExport.ExportMatchesBreakdown | carbon_calculator.py:224-225 | the CSV category rows and the on-screen lines carry the same labels and figures in the same order |
| CsvExport.ExportSkipsNegativeGuard | carbon_calculator.py:213-226 | a form rejected for a negative value is still exported, with a negative footprint |
| Session.Save | carbon_calculator.py:185-187 | the record holds each field's raw text under its key, "imperial" or "metric" under unit_system according to the switch, and the save time; it has no other keys |
| Session.Load | carbon_calculator.py:198-202 | a missing file loads nothing; otherwise each field is restored from its key or is blank, imperial iff unit_system is "imperial", and the time shown is the record's timestamp or "unknown time" |
| Session.SaveLoadRoundTrip | carbon_calculator.py:185-202 | loading a saved record gives back the same fields, the same unit switch and the save time |
| Session.ReloadRecalculates | carbon_calculator.py:200-204 | the recalculation after a load gives exactly the saved form's result |
| Session.EmptyRecordLoadsBlank | carbon_calculator.py:201-205 | an empty record loads a blank metric form whose time is "unknown time" |

## Left out

- The Flet user interface: page setup, theme, widgets, layout, the pie and
  bar charts, snack-bar messages, the about dialog and the Reset button.
  These are presentation only.
- Text-to-number conversion. Python's `float()` is the parameter `float`.
  Its special values (`nan`, `inf`) have no counterpart in exact reals. A
  `nan` input would pass the application's `< 0` check.
- Floating-point rounding, and the `:.2f` / `:.1f` formatting of figures on
  screen, in chart titles and in the CSV file.
- File I/O: opening, writing and reading the JSON session file and the CSV
  file, the CSV quoting, and the `carbon_footprint_<YYYYMMDD_HHMMSS>.csv`
  file name. The save time is a parameter, not a clock read.
- Session.Load: a record holds text values only. JSON numbers or `null`
  stored under a field key are not modelled. Nor is a session file whose
  top-level JSON value is not an object: there `data.get` raises and the
  application reports "No saved data found".
- Session.Load: the relabelling and recalculation that follow a load (lines
  203-204) are not part of it. They are `ToggleUnits` and `Calculate` applied
  to the restored form (`ReloadRecalculates`). Line 203 builds a UI event
  object by hand; if that construction raised, the fields and the switch
  would already be overwritten, nothing would be recalculated and the
  message would be "No saved data found". That depends on the UI library,
  which is not part of this model.
- Failures while writing a file (save or export). The export's only modelled
  failure is a field that does not convert.
- Logging, the `__main__` launcher and the trailing comment on future
  enhancements.
