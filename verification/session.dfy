/**
 The Save and Load buttons. Save records the raw text of the six fields under
 their keys, the unit system under "unit_system" and the save time under
 "timestamp". Load restores the fields and the unit switch from such a record,
 reading a missing field as blank, a missing or unknown unit system as metric
 and a missing time as "unknown time".
 */
module Session {
  import opened Results
  import opened Catalog
  import opened Footprint

  /** A saved session: text values under text keys. */
  type Record = map<string, string>

  const UnitSystemKey: string := "unit_system"
  const TimestampKey: string := "timestamp"

  /** What Load puts back: the form, and the time the record says it was saved. */
  datatype Restored = Restored(form: Form, savedAt: string)

  /** The value under a key, or a default when the record has no such key. */
  function Lookup(rec: Record, key: string, default: string): string
  {
    if key in rec then rec[key] else default
  }

  /** Builds the record the Save button writes; `now` is the clock reading at the time of saving. */
  function Save(form: Form, now: string): (rec: Record)
    requires form.WellFormed()
    ensures rec.Keys == (set c | c in Categories :: Key(c)) + {UnitSystemKey, TimestampKey}
    ensures forall c :: Key(c) in rec && rec[Key(c)] == form.fields[Position(c)]
    ensures UnitSystemKey in rec && (rec[UnitSystemKey] == "imperial" <==> form.imperial)
    ensures UnitSystemKey in rec && (rec[UnitSystemKey] == "metric" <==> !form.imperial)
    ensures TimestampKey in rec && rec[TimestampKey] == now
  {
    var fs := form.fields;
    var rec := map[Key(Electricity) := fs[0], Key(Gas) := fs[1], Key(Water) := fs[2],
                   Key(Kilometers) := fs[3], Key(Flights) := fs[4], Key(Food) := fs[5]];
    rec[UnitSystemKey := SystemName(form.Units())][TimestampKey := now]
  }

  /**
   Handles the Load button. `stored` is the record read back from disk, or None
   when there is no saved session (the form is then left as it is).
   */
  function Load(stored: Option<Record>): (r: Option<Restored>)
    ensures r.Some? <==> stored.Some?
    ensures r.Some? ==> r.value.form.WellFormed()
    ensures r.Some? ==> forall c :: r.value.form.fields[Position(c)] == Lookup(stored.value, Key(c), "")
    ensures r.Some? ==> (r.value.form.imperial <==> UnitSystemKey in stored.value && stored.value[UnitSystemKey] == "imperial")
    ensures r.Some? ==> r.value.savedAt == Lookup(stored.value, TimestampKey, "unknown time")
  {
    match stored
    case None => None
    case Some(rec) =>
      var fields := seq(|Categories|, i requires 0 <= i < |Categories| => Lookup(rec, Key(Categories[i]), ""));
      var imperial := Lookup(rec, UnitSystemKey, "metric") == "imperial";
      Some(Restored(Form(fields, imperial), Lookup(rec, TimestampKey, "unknown time")))
  }

  /** Loading what was saved gives back the same fields, the same unit switch and the save time. */
  lemma SaveLoadRoundTrip(form: Form, now: string)
    requires form.WellFormed()
    ensures Load(Some(Save(form, now))) == Some(Restored(form, now))
  {
    var rec := Save(form, now);
    var r := Load(Some(rec)).value;
    forall i | 0 <= i < |Categories|
      ensures r.form.fields[i] == form.fields[i]
    {
      var c := Categories[i];
      assert Position(c) == i;
      assert r.form.fields[Position(c)] == rec[Key(c)];
    }
    assert r.form.fields == form.fields;
    assert r.form.imperial == form.imperial;
    assert r.savedAt == now;
  }

  /** A reloaded session calculates exactly what the saved form calculated. */
  lemma ReloadRecalculates(form: Form, now: string, float: Parser)
    requires form.WellFormed()
    ensures Load(Some(Save(form, now))).Some?
    ensures Calculate(Load(Some(Save(form, now))).value.form, float) == Calculate(form, float)
  {
    SaveLoadRoundTrip(form, now);
  }

  /** An empty record loads as a blank metric form of unknown time (which `BlankFormScoresZero` scores as zero). */
  lemma EmptyRecordLoadsBlank()
    ensures Load(Some(map[])) == Some(Restored(Form(BlankFields, false), "unknown time"))
  {
    var r := Load(Some(map[])).value;
    assert r.form.fields == BlankFields;
  }
}
