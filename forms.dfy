/**
  The device-location form of the admin: the values it prefills from the
  current Location and FloorPlan, its type-conditional validation of the
  cleaned data, and the save that creates or sparsely updates the Location
  and FloorPlan before writing the assignment itself.
 */
module Forms {
  import opened Values
  import opened Models

  /** The keys of the form's cleaned data. */
  datatype Field =
    | TypeKey | LocationKey | LocationSelectionKey | NameKey | AddressKey | GeometryKey
    | FloorplanSelectionKey | FloorplanKey | FloorKey | ImageKey | IndoorKey

  type Data = map<Field, Value>

  /** The fields a location of type outdoor or indoor must fill when no Location is chosen. */
  const LocationFields: seq<Field> := [LocationSelectionKey, NameKey, AddressKey, GeometryKey]

  /** The fields an indoor location must fill when no FloorPlan is chosen (not the position). */
  const FloorPlanFields: seq<Field> := [FloorplanSelectionKey, FloorKey, ImageKey]

  const OUTDOOR: Value := Text(TypeName(Outdoor))
  const INDOOR: Value := Text(TypeName(Indoor))
  const MOBILE: Value := Text(TypeName(Mobile))

  /** "this field is required for locations of type %(type)s", attached to `field`. */
  datatype FieldError = Required(field: Field, locationType: string)

  /** How a form operation can end early: a missing cleaned-data key, an exception, or unvalidated data. */
  datatype Failure = MissingKey(key: Field) | Raised(error: Error) | NotValidated

  /** The cleaned data together with the errors added so far. */
  datatype FormState = FormState(data: Data, errors: seq<FieldError>)

  /** The outcome of `clean`: the key whose lookup failed, if any, and the state it leaves. */
  datatype CleanResult = CleanResult(missing: Option<Field>, state: FormState)

  predicate NoDuplicates(fields: seq<Field>) {
    forall i, j :: 0 <= i < j < |fields| ==> fields[i] != fields[j]
  }

  /** A field that is in the cleaned data with an empty value. */
  predicate Blank(data: Data, f: Field) {
    f in data && !Truthy(data[f])
  }

  // ---------------------------------------------------------------------
  // clean
  // ---------------------------------------------------------------------

  /** The errors one requiredness loop adds: one per blank field, in the order of `fields`. */
  function RequiredErrors(fields: seq<Field>, data: Data, t: string): (r: seq<FieldError>)
    ensures |r| <= |fields|
    ensures forall e :: e in r ==> e.field in fields && e.locationType == t && Blank(data, e.field)
    decreases |fields|
  {
    if fields == [] then []
    else
      var f := fields[|fields| - 1];
      RequiredErrors(fields[..|fields| - 1], data, t) + (if Blank(data, f) then [Required(f, t)] else [])
  }

  /** Each blank field of a list without repetitions gets exactly one error; every other field none. */
  lemma {:induction false} RequiredErrorsExactlyOnce(fields: seq<Field>, data: Data, t: string, f: Field)
    requires NoDuplicates(fields)
    ensures multiset(RequiredErrors(fields, data, t))[Required(f, t)] == if f in fields && Blank(data, f) then 1 else 0
    decreases |fields|
  {
    if fields != [] {
      var init, last := fields[..|fields| - 1], fields[|fields| - 1];
      assert fields == init + [last];
      RequiredErrorsExactlyOnce(init, data, t, f);
      var tail := if Blank(data, last) then [Required(last, t)] else [];
      assert multiset(RequiredErrors(fields, data, t)) == multiset(RequiredErrors(init, data, t)) + multiset(tail);
      assert f in fields <==> f in init || f == last;
      assert last !in init by {
        forall i | 0 <= i < |init| ensures init[i] != last {
          assert init[i] == fields[i];
        }
      }
    }
  }

  /** Neither requiredness list repeats a field, and no field is in both. */
  lemma FieldListsDistinct()
    ensures NoDuplicates(LocationFields) && NoDuplicates(FloorPlanFields)
    ensures forall f :: f in LocationFields ==> f !in FloorPlanFields
  {
  }

  /** The fields a requiredness loop reports, which `add_error` also drops from the cleaned data. */
  function BlankFields(fields: seq<Field>, data: Data): set<Field> {
    set f | f in fields && Blank(data, f)
  }

  /** Extending a requiredness loop by one field adds that field's error and drop, if it is blank. */
  lemma RequireStep(fields: seq<Field>, i: nat, data: Data, t: string)
    requires i < |fields|
    ensures RequiredErrors(fields[..i + 1], data, t)
         == RequiredErrors(fields[..i], data, t) + (if Blank(data, fields[i]) then [Required(fields[i], t)] else [])
    ensures BlankFields(fields[..i + 1], data)
         == BlankFields(fields[..i], data) + (if Blank(data, fields[i]) then {fields[i]} else {})
  {
    assert fields[..i + 1][..i] == fields[..i];
    assert fields[..i + 1] == fields[..i] + [fields[i]];
  }

  /** What a requiredness loop has left of the data, extended by one field it has not seen yet. */
  lemma RequireStepData(fields: seq<Field>, i: nat, data: Data)
    requires i < |fields| && fields[i] !in fields[..i]
    ensures var left := data - BlankFields(fields[..i], data);
      && ((fields[i] in left && !Truthy(left[fields[i]])) == Blank(data, fields[i]))
      && data - BlankFields(fields[..i + 1], data) == if Blank(data, fields[i]) then left - {fields[i]} else left
  {
    RequireStep(fields, i, data, "");
  }

  /** One requiredness loop applied to a form state. */
  function Require(s: FormState, fields: seq<Field>, t: string): FormState {
    FormState(s.data - BlankFields(fields, s.data), s.errors + RequiredErrors(fields, s.data, t))
  }

  /** The three type values compare unequal, which every branch of `clean` relies on. */
  lemma TypeValuesDistinct()
    ensures OUTDOOR != INDOOR && OUTDOOR != MOBILE && INDOOR != MOBILE
  {
    assert OUTDOOR.s[0] != INDOOR.s[0] && OUTDOOR.s[0] != MOBILE.s[0] && INDOOR.s[0] != MOBILE.s[0];
  }

  /** The first half of `clean`: outdoor and indoor without a chosen Location run the location loop. */
  function LocationChecked(s: FormState, t: Value): FormState
    requires (t == OUTDOOR || t == INDOOR) ==> LocationKey in s.data
  {
    if (t == OUTDOOR || t == INDOOR) && !Truthy(s.data[LocationKey]) then Require(s, LocationFields, t.s) else s
  }

  /** What `clean` writes for a mobile location: the device's own place, or a reuse of the current Location. */
  function MobileData(data: Data, hadLocation: bool, deviceName: string): Data {
    if hadLocation then data[LocationSelectionKey := Text("existing")]
    else data[NameKey := Text(deviceName)][AddressKey := Text("")][GeometryKey := Text("")][LocationSelectionKey := Text("new")]
  }

  /** The second half of `clean`, from the state the location check left. */
  function TypeChecked(s1: FormState, t: Value, hadLocation: bool, deviceName: string): CleanResult {
    if t == INDOOR && FloorplanKey !in s1.data then CleanResult(Some(FloorplanKey), s1)
    else if t == INDOOR && !Truthy(s1.data[FloorplanKey]) then CleanResult(None, Require(s1, FloorPlanFields, t.s))
    else if t == MOBILE then CleanResult(None, s1.(data := MobileData(s1.data, hadLocation, deviceName)))
    else CleanResult(None, s1)
  }

  /**
    `clean`, as a function of the state it starts from, whether the
    instance already had a Location, and the device's name.
   */
  function Cleaned(s: FormState, hadLocation: bool, deviceName: string): (r: CleanResult)
    ensures |s.errors| <= |r.state.errors| && r.state.errors[..|s.errors|] == s.errors
  {
    if TypeKey !in s.data then CleanResult(Some(TypeKey), s)
    else
      var t := s.data[TypeKey];
      if (t == OUTDOOR || t == INDOOR) && LocationKey !in s.data then CleanResult(Some(LocationKey), s)
      else TypeChecked(LocationChecked(s, t), t, hadLocation, deviceName)
  }

  /** The location check only reports location fields and only drops what it reports. */
  lemma LocationCheckedReports(s: FormState, t: Value) returns (added: seq<FieldError>)
    requires (t == OUTDOOR || t == INDOOR) ==> LocationKey in s.data
    ensures LocationChecked(s, t).errors == s.errors + added
    ensures forall e :: e in added ==> e.field in LocationFields && Text(e.locationType) == t
    ensures var d := LocationChecked(s, t).data;
      forall k :: k in d ==> k in s.data && d[k] == s.data[k]
    ensures var d := LocationChecked(s, t).data;
      forall k :: k in s.data && k !in LocationFields ==> k in d
  {
    if (t == OUTDOOR || t == INDOOR) && !Truthy(s.data[LocationKey]) {
      added := RequiredErrors(LocationFields, s.data, t.s);
    } else {
      added := [];
    }
  }

  /** The second half of `clean` only reports floor plan fields, and writes values only for mobile. */
  lemma TypeCheckedReports(s1: FormState, t: Value, hadLocation: bool, deviceName: string) returns (added: seq<FieldError>)
    ensures TypeChecked(s1, t, hadLocation, deviceName).state.errors == s1.errors + added
    ensures forall e :: e in added ==> e.field in FloorPlanFields && Text(e.locationType) == t
    ensures var d := TypeChecked(s1, t, hadLocation, deviceName).state.data;
      t != MOBILE ==> forall k :: k in d ==> k in s1.data && d[k] == s1.data[k]
  {
    if t == INDOOR && FloorplanKey in s1.data && !Truthy(s1.data[FloorplanKey]) {
      added := RequiredErrors(FloorPlanFields, s1.data, t.s);
    } else {
      added := [];
    }
  }

  /** The errors `clean` appends, each for a location or floor plan field and carrying the submitted type. */
  lemma CleanedAdded(s: FormState, hadLocation: bool, deviceName: string) returns (added: seq<FieldError>)
    ensures Cleaned(s, hadLocation, deviceName).state.errors == s.errors + added
    ensures forall e :: e in added ==>
      && (e.field in LocationFields || e.field in FloorPlanFields)
      && TypeKey in s.data && Text(e.locationType) == s.data[TypeKey]
  {
    if TypeKey !in s.data || ((s.data[TypeKey] == OUTDOOR || s.data[TypeKey] == INDOOR) && LocationKey !in s.data) {
      added := [];
      assert Cleaned(s, hadLocation, deviceName).state == s;
    } else {
      var t := s.data[TypeKey];
      var s1 := LocationChecked(s, t);
      var fromLocation := LocationCheckedReports(s, t);
      var more := TypeCheckedReports(s1, t, hadLocation, deviceName);
      added := fromLocation + more;
      assert Cleaned(s, hadLocation, deviceName) == TypeChecked(s1, t, hadLocation, deviceName);
    }
  }

  /** `clean` only appends errors, each for a location or floor plan field and carrying the submitted type. */
  lemma CleanedOnlyReports(s: FormState, hadLocation: bool, deviceName: string)
    ensures var r := Cleaned(s, hadLocation, deviceName);
      forall e :: e in r.state.errors[|s.errors|..] ==>
        && (e.field in LocationFields || e.field in FloorPlanFields)
        && TypeKey in s.data && Text(e.locationType) == s.data[TypeKey]
  {
    var added := CleanedAdded(s, hadLocation, deviceName);
    assert Cleaned(s, hadLocation, deviceName).state.errors[|s.errors|..] == added;
  }

  /** Outside `mobile`, `clean` never writes a value: it only drops the fields it reports. */
  lemma CleanedKeepsValues(s: FormState, hadLocation: bool, deviceName: string)
    requires TypeKey in s.data && s.data[TypeKey] != MOBILE
    ensures var d := Cleaned(s, hadLocation, deviceName).state.data;
      forall k :: k in d ==> k in s.data && d[k] == s.data[k]
  {
    var t := s.data[TypeKey];
    if !((t == OUTDOOR || t == INDOOR) && LocationKey !in s.data) {
      var s1 := LocationChecked(s, t);
      var _ := LocationCheckedReports(s, t);
      var _ := TypeCheckedReports(s1, t, hadLocation, deviceName);
    }
  }

  /** The errors `clean` adds when the location check fires: those of the location loop, then any of the floor plan loop. */
  lemma CleanedLocationErrors(s: FormState, hadLocation: bool, deviceName: string)
    returns (fromLocation: seq<FieldError>, more: seq<FieldError>)
    requires TypeKey in s.data && s.data[TypeKey] in {OUTDOOR, INDOOR}
    requires LocationKey in s.data && !Truthy(s.data[LocationKey])
    ensures fromLocation == RequiredErrors(LocationFields, s.data, s.data[TypeKey].s)
    ensures forall e :: e in more ==> e.field in FloorPlanFields
    ensures Cleaned(s, hadLocation, deviceName).state.errors[|s.errors|..] == fromLocation + more
  {
    var t := s.data[TypeKey];
    var s1 := LocationChecked(s, t);
    fromLocation := LocationLoopErrors(s, t);
    more := TypeCheckedReports(s1, t, hadLocation, deviceName);
    assert Cleaned(s, hadLocation, deviceName) == TypeChecked(s1, t, hadLocation, deviceName);
    AfterPrefix(s.errors, fromLocation + more);
  }

  /** When the location check fires, it appends the location loop's errors. */
  lemma LocationLoopErrors(s: FormState, t: Value) returns (fromLocation: seq<FieldError>)
    requires t == OUTDOOR || t == INDOOR
    requires LocationKey in s.data && !Truthy(s.data[LocationKey])
    ensures fromLocation == RequiredErrors(LocationFields, s.data, t.s)
    ensures LocationChecked(s, t).errors == s.errors + fromLocation
  {
    fromLocation := RequiredErrors(LocationFields, s.data, t.s);
  }

  lemma AfterPrefix<T>(a: seq<T>, b: seq<T>)
    ensures (a + b)[|a|..] == b
  {
  }

  /**
    Outdoor or indoor without a chosen Location: each location field that is
    present and blank gets exactly one error carrying the type; absent or
    filled fields get none.
   */
  lemma LocationFieldsRequired(s: FormState, hadLocation: bool, deviceName: string, f: Field)
    requires TypeKey in s.data && s.data[TypeKey] in {OUTDOOR, INDOOR}
    requires LocationKey in s.data && !Truthy(s.data[LocationKey])
    requires f in LocationFields
    ensures var r := Cleaned(s, hadLocation, deviceName);
      multiset(r.state.errors[|s.errors|..])[Required(f, s.data[TypeKey].s)] == if Blank(s.data, f) then 1 else 0
  {
    var t := s.data[TypeKey].s;
    var fromLocation, more := CleanedLocationErrors(s, hadLocation, deviceName);
    FieldListsDistinct();
    assert Required(f, t) !in more;
    RequiredErrorsExactlyOnce(LocationFields, s.data, t, f);
    assert multiset(fromLocation + more) == multiset(fromLocation) + multiset(more);
  }

  /** Outdoor or indoor with a chosen Location: `clean` reports no location field. */
  lemma ChosenLocationNoLocationErrors(s: FormState, hadLocation: bool, deviceName: string)
    requires TypeKey in s.data && s.data[TypeKey] in {OUTDOOR, INDOOR}
    requires LocationKey in s.data && Truthy(s.data[LocationKey])
    ensures var r := Cleaned(s, hadLocation, deviceName);
      forall e :: e in r.state.errors[|s.errors|..] ==> e.field !in LocationFields
  {
    var t := s.data[TypeKey];
    assert LocationChecked(s, t) == s;
    var more := TypeCheckedReports(s, t, hadLocation, deviceName);
    assert Cleaned(s, hadLocation, deviceName).state.errors[|s.errors|..] == more;
    FieldListsDistinct();
  }

  /** Indoor with a chosen FloorPlan: `clean` reports no floor plan field. */
  lemma ChosenFloorPlanNoFloorPlanErrors(s: FormState, hadLocation: bool, deviceName: string)
    requires TypeKey in s.data && s.data[TypeKey] == INDOOR
    requires LocationKey in s.data
    requires FloorplanKey in s.data && Truthy(s.data[FloorplanKey])
    ensures var r := Cleaned(s, hadLocation, deviceName);
      forall e :: e in r.state.errors[|s.errors|..] ==> e.field !in FloorPlanFields
  {
    var s1 := LocationChecked(s, INDOOR);
    var fromLocation := LocationCheckedReports(s, INDOOR);
    FieldListsDistinct();
    assert FloorplanKey in s1.data && Truthy(s1.data[FloorplanKey]);
    assert Cleaned(s, hadLocation, deviceName) == CleanResult(None, s1);
    assert s1.errors[|s.errors|..] == fromLocation;
  }

  /** Indoor without a chosen FloorPlan: `clean` runs the floor plan loop on what the location check left. */
  lemma CleanedIndoorWithoutFloorPlan(s: FormState, hadLocation: bool, deviceName: string)
    requires TypeKey in s.data && s.data[TypeKey] == INDOOR
    requires LocationKey in s.data && FloorplanKey in s.data && !Truthy(s.data[FloorplanKey])
    ensures Cleaned(s, hadLocation, deviceName) == CleanResult(None, Require(LocationChecked(s, INDOOR), FloorPlanFields, "indoor"))
  {
    TypeValuesDistinct();
    var s1 := LocationChecked(s, INDOOR);
    var _ := LocationCheckedReports(s, INDOOR);
    assert FloorplanKey in s1.data && !Truthy(s1.data[FloorplanKey]);
  }

  /** The location check leaves every floor plan field as it was. */
  lemma LocationCheckedKeepsFloorPlanFields(s: FormState, t: Value)
    requires (t == OUTDOOR || t == INDOOR) ==> LocationKey in s.data
    ensures forall f :: f in FloorPlanFields ==> Blank(LocationChecked(s, t).data, f) == Blank(s.data, f)
  {
    var _ := LocationCheckedReports(s, t);
    forall f | f in FloorPlanFields
      ensures Blank(LocationChecked(s, t).data, f) == Blank(s.data, f)
    {
      assert f !in LocationFields;
    }
  }

  /** The errors `clean` adds for an indoor location without a chosen FloorPlan. */
  lemma CleanedFloorPlanErrors(s: FormState, hadLocation: bool, deviceName: string)
    returns (fromLocation: seq<FieldError>, data1: Data)
    requires TypeKey in s.data && s.data[TypeKey] == INDOOR
    requires LocationKey in s.data && FloorplanKey in s.data && !Truthy(s.data[FloorplanKey])
    ensures forall e :: e in fromLocation ==> e.field in LocationFields
    ensures forall f :: f in FloorPlanFields ==> Blank(data1, f) == Blank(s.data, f)
    ensures var r := Cleaned(s, hadLocation, deviceName);
      r.missing.None? && r.state.errors[|s.errors|..] == fromLocation + RequiredErrors(FloorPlanFields, data1, "indoor")
  {
    CleanedIndoorWithoutFloorPlan(s, hadLocation, deviceName);
    var s1 := LocationChecked(s, INDOOR);
    fromLocation := LocationCheckedReports(s, INDOOR);
    data1 := s1.data;
    LocationCheckedKeepsFloorPlanFields(s, INDOOR);
    var more := RequiredErrors(FloorPlanFields, data1, "indoor");
    assert Require(s1, FloorPlanFields, "indoor").errors == s.errors + (fromLocation + more);
    AfterPrefix(s.errors, fromLocation + more);
  }

  /**
    Indoor without a chosen FloorPlan: each floor plan field that is present
    and blank gets exactly one error, so floor 0 is reported missing.
   */
  lemma FloorPlanFieldsRequired(s: FormState, hadLocation: bool, deviceName: string, f: Field)
    requires TypeKey in s.data && s.data[TypeKey] == INDOOR
    requires LocationKey in s.data && FloorplanKey in s.data && !Truthy(s.data[FloorplanKey])
    requires f in FloorPlanFields
    ensures var r := Cleaned(s, hadLocation, deviceName);
      && r.missing.None?
      && multiset(r.state.errors[|s.errors|..])[Required(f, "indoor")] == if Blank(s.data, f) then 1 else 0
  {
    var fromLocation, data1 := CleanedFloorPlanErrors(s, hadLocation, deviceName);
    var fromFloorPlan := RequiredErrors(FloorPlanFields, data1, "indoor");
    FieldListsDistinct();
    assert Required(f, "indoor") !in fromLocation;
    RequiredErrorsExactlyOnce(FloorPlanFields, data1, "indoor", f);
    assert multiset(fromLocation + fromFloorPlan) == multiset(fromLocation) + multiset(fromFloorPlan);
  }

  /** Floor 0, the ground floor, is treated as a missing floor. */
  lemma GroundFloorReportedMissing(s: FormState, hadLocation: bool, deviceName: string)
    requires TypeKey in s.data && s.data[TypeKey] == INDOOR
    requires LocationKey in s.data && FloorplanKey in s.data && !Truthy(s.data[FloorplanKey])
    requires FloorKey in s.data && s.data[FloorKey] == Int(0)
    ensures Required(FloorKey, "indoor") in Cleaned(s, hadLocation, deviceName).state.errors
  {
    FloorPlanFieldsRequired(s, hadLocation, deviceName, FloorKey);
    var r := Cleaned(s, hadLocation, deviceName);
    assert Required(FloorKey, "indoor") in r.state.errors[|s.errors|..];
  }

  /** Mobile without a Location: the location fields are overwritten from the device, and nothing is reported. */
  lemma MobileWithoutLocation(s: FormState, deviceName: string)
    requires TypeKey in s.data && s.data[TypeKey] == MOBILE
    ensures Cleaned(s, false, deviceName) == CleanResult(None, FormState(
      s.data[NameKey := Text(deviceName)][AddressKey := Text("")][GeometryKey := Text("")][LocationSelectionKey := Text("new")],
      s.errors))
  {
  }

  /** Mobile with a Location: only the selection is forced to "existing", and nothing is reported. */
  lemma MobileWithLocation(s: FormState, deviceName: string)
    requires TypeKey in s.data && s.data[TypeKey] == MOBILE
    ensures Cleaned(s, true, deviceName) == CleanResult(None, FormState(s.data[LocationSelectionKey := Text("existing")], s.errors))
  {
  }

  /** An outdoor submission never reports a floor plan field and never looks up the floor plan. */
  lemma OutdoorIgnoresFloorPlan(s: FormState, hadLocation: bool, deviceName: string)
    requires TypeKey in s.data && s.data[TypeKey] == OUTDOOR
    ensures var r := Cleaned(s, hadLocation, deviceName);
      && r.missing != Some(FloorplanKey)
      && forall e :: e in r.state.errors[|s.errors|..] ==> e.field !in FloorPlanFields
  {
  }

  // ---------------------------------------------------------------------
  // __init__
  // ---------------------------------------------------------------------

  /** The initial values `__init__` adds for the current Location and FloorPlan. */
  function Prefill(dl: DeviceLocation, locations: map<LocationId, Location>,
                   floorplans: map<FloorPlanId, FloorPlan>): (r: Data)
    requires dl.location.Some? ==> dl.location.value in locations
    requires dl.floorplan.Some? ==> dl.floorplan.value in floorplans
    ensures dl.location.Some? ==>
      var loc := locations[dl.location.value];
      && LocationSelectionKey in r && r[LocationSelectionKey] == Text("existing")
      && NameKey in r && r[NameKey] == loc.name
      && AddressKey in r && r[AddressKey] == loc.address
      && GeometryKey in r && r[GeometryKey] == loc.geometry
    ensures dl.location.None? ==>
      LocationSelectionKey !in r && NameKey !in r && AddressKey !in r && GeometryKey !in r
    ensures dl.floorplan.Some? ==>
      var fp := floorplans[dl.floorplan.value];
      && FloorplanSelectionKey in r && r[FloorplanSelectionKey] == Text("existing")
      && FloorKey in r && r[FloorKey] == fp.floor
      && ImageKey in r && r[ImageKey] == fp.image
    ensures dl.floorplan.None? ==> FloorplanSelectionKey !in r && FloorKey !in r && ImageKey !in r
    ensures r.Keys <= {LocationSelectionKey, NameKey, AddressKey, GeometryKey, FloorplanSelectionKey, FloorKey, ImageKey}
  {
    var fromLocation: Data :=
      if dl.location.Some? then
        var loc := locations[dl.location.value];
        map[LocationSelectionKey := Text("existing"), NameKey := loc.name,
            AddressKey := loc.address, GeometryKey := loc.geometry]
      else map[];
    var fromFloorPlan: Data :=
      if dl.floorplan.Some? then
        var fp := floorplans[dl.floorplan.value];
        map[FloorplanSelectionKey := Text("existing"), FloorKey := fp.floor, ImageKey := fp.image]
      else map[];
    fromLocation + fromFloorPlan
  }

  // ---------------------------------------------------------------------
  // save
  // ---------------------------------------------------------------------

  /** The Location `save` creates when the instance has none. */
  function LocationToCreate(data: Data, org: OrgId): (r: Result<Location, Field>)
    ensures r.Ok? <==> NameKey in data && AddressKey in data && GeometryKey in data
    ensures r.Err? ==> r.error in {NameKey, AddressKey, GeometryKey} && r.error !in data
    ensures r.Ok? ==> r.value == Location(org, data[NameKey], data[AddressKey], data[GeometryKey])
  {
    if NameKey !in data then Err(NameKey)
    else if AddressKey !in data then Err(AddressKey)
    else if GeometryKey !in data then Err(GeometryKey)
    else Ok(Location(org, data[NameKey], data[AddressKey], data[GeometryKey]))
  }

  /** The sparse update `save` applies to an existing Location: a submitted value replaces the stored one only if it is true. */
  function LocationAfterUpdate(loc: Location, data: Data): (r: Result<Location, Field>)
    ensures r.Ok? <==> NameKey in data && AddressKey in data && GeometryKey in data
    ensures r.Err? ==> r.error in {NameKey, AddressKey, GeometryKey} && r.error !in data
    ensures r.Ok? ==> r.value.organization == loc.organization
    ensures r.Ok? ==>
      && (Truthy(loc.name) ==> Truthy(r.value.name))
      && (Truthy(loc.address) ==> Truthy(r.value.address))
      && (Truthy(loc.geometry) ==> Truthy(r.value.geometry))
    ensures r.Ok? ==>
      && (Truthy(data[NameKey]) ==> r.value.name == data[NameKey])
      && (!Truthy(data[NameKey]) ==> r.value.name == loc.name)
      && (Truthy(data[AddressKey]) ==> r.value.address == data[AddressKey])
      && (!Truthy(data[AddressKey]) ==> r.value.address == loc.address)
      && (Truthy(data[GeometryKey]) ==> r.value.geometry == data[GeometryKey])
      && (!Truthy(data[GeometryKey]) ==> r.value.geometry == loc.geometry)
    ensures r.Ok? && !Truthy(data[NameKey]) && !Truthy(data[AddressKey]) && !Truthy(data[GeometryKey]) ==> r.value == loc
  {
    if NameKey !in data then Err(NameKey)
    else if AddressKey !in data then Err(AddressKey)
    else if GeometryKey !in data then Err(GeometryKey)
    else Ok(loc.(name := Or(data[NameKey], loc.name),
                 address := Or(data[AddressKey], loc.address),
                 geometry := Or(data[GeometryKey], loc.geometry)))
  }

  /** The FloorPlan `save` creates for an indoor instance that has none, on the resolved Location. */
  function FloorPlanToCreate(data: Data, org: OrgId, location: LocationId): (r: Result<FloorPlan, Failure>)
    ensures r.Ok? <==> FloorKey in data && ImageKey in data
    ensures r.Err? ==> r.error in {MissingKey(FloorKey), MissingKey(ImageKey)} && r.error.key !in data
    ensures r.Ok? ==> r.value == FloorPlan(org, location, data[FloorKey], data[ImageKey])
  {
    if FloorKey !in data then Err(MissingKey(FloorKey))
    else if ImageKey !in data then Err(MissingKey(ImageKey))
    else Ok(FloorPlan(org, location, data[FloorKey], data[ImageKey]))
  }

  /**
    The update `save` applies to an existing FloorPlan. The floor is merged
    sparsely; an empty image falls back to an `image` attribute of the
    Location, which a Location does not have, so it raises AttributeError.
   */
  function FloorPlanAfterUpdate(fp: FloorPlan, data: Data): (r: Result<FloorPlan, Failure>)
    ensures r.Ok? <==> FloorKey in data && ImageKey in data && Truthy(data[ImageKey])
    ensures FloorKey !in data ==> r == Err(MissingKey(FloorKey))
    ensures FloorKey in data && ImageKey !in data ==> r == Err(MissingKey(ImageKey))
    ensures FloorKey in data && ImageKey in data && !Truthy(data[ImageKey]) ==> r == Err(Raised(AttributeError("image")))
    ensures r.Ok? ==>
      && r.value.organization == fp.organization && r.value.location == fp.location
      && r.value.image == data[ImageKey]
      && (Truthy(data[FloorKey]) ==> r.value.floor == data[FloorKey])
      && (!Truthy(data[FloorKey]) ==> r.value.floor == fp.floor)
      && (r.value.floor == Int(0) ==> fp.floor == Int(0))
  {
    if FloorKey !in data then Err(MissingKey(FloorKey))
    else
      var floor := Or(data[FloorKey], fp.floor);
      if ImageKey !in data then Err(MissingKey(ImageKey))
      else if !Truthy(data[ImageKey]) then Err(Raised(AttributeError("image")))
      else Ok(fp.(floor := floor, image := data[ImageKey]))
  }

  /**
    How the Location half of `save` fails, if it does: a missing key of the
    create or the update, then the (name, organization) constraint.
   */
  function LocationSaveFailure(location: Option<LocationId>, locations: map<LocationId, Location>,
                               data: Data, org: OrgId): (r: Option<Failure>)
    requires location.Some? ==> location.value in locations
    ensures r.Some? ==> r.value.MissingKey? || r.value == Raised(IntegrityError(UniqueNameOrganization))
    ensures r.Some? && r.value.MissingKey? ==> r.value.key in {NameKey, AddressKey, GeometryKey} && r.value.key !in data
    ensures r.None? ==> NameKey in data && AddressKey in data && GeometryKey in data
  {
    if location.None? then
      var plan := LocationToCreate(data, org);
      if plan.Err? then Some(MissingKey(plan.error))
      else if NameTaken(locations, plan.value.name, plan.value.organization, None) then
        Some(Raised(IntegrityError(UniqueNameOrganization)))
      else None
    else
      var plan := LocationAfterUpdate(locations[location.value], data);
      if plan.Err? then Some(MissingKey(plan.error))
      else if NameTaken(locations, plan.value.name, plan.value.organization, location) then
        Some(Raised(IntegrityError(UniqueNameOrganization)))
      else None
  }

  /**
    How the FloorPlan half of `save` fails, if it does, once the Location is
    resolved: a missing type, then, for indoor only, a missing key or the
    image AttributeError of the create or the update, then the (location,
    floor) constraint.
   */
  function FloorPlanSaveFailure(location: LocationId, floorplan: Option<FloorPlanId>,
                                floorplans: map<FloorPlanId, FloorPlan>, data: Data, org: OrgId): (r: Option<Failure>)
    requires floorplan.Some? ==> floorplan.value in floorplans
    ensures TypeKey !in data <==> r == Some(MissingKey(TypeKey))
    ensures TypeKey in data && data[TypeKey] != INDOOR ==> r.None?
    ensures r.Some? ==> r.value.MissingKey? || r.value == Raised(AttributeError("image"))
                        || r.value == Raised(IntegrityError(UniqueLocationFloor))
  {
    if TypeKey !in data then Some(MissingKey(TypeKey))
    else if data[TypeKey] != INDOOR then None
    else if floorplan.None? then
      var plan := FloorPlanToCreate(data, org, location);
      if plan.Err? then Some(plan.error)
      else if FloorTaken(floorplans, location, plan.value.floor, None) then
        Some(Raised(IntegrityError(UniqueLocationFloor)))
      else None
    else
      var plan := FloorPlanAfterUpdate(floorplans[floorplan.value], data);
      if plan.Err? then Some(plan.error)
      else if FloorTaken(floorplans, plan.value.location, plan.value.floor, floorplan) then
        Some(Raised(IntegrityError(UniqueLocationFloor)))
      else None
  }

  /** Saving the same submission again changes the Location no further. */
  lemma LocationUpdateIdempotent(loc: Location, data: Data)
    requires LocationAfterUpdate(loc, data).Ok?
    ensures LocationAfterUpdate(LocationAfterUpdate(loc, data).value, data) == LocationAfterUpdate(loc, data)
  {
    OrAbsorbs(data[NameKey], loc.name);
    OrAbsorbs(data[AddressKey], loc.address);
    OrAbsorbs(data[GeometryKey], loc.geometry);
  }

  /** Saving the same submission again changes the FloorPlan no further. */
  lemma FloorPlanUpdateIdempotent(fp: FloorPlan, data: Data)
    requires FloorPlanAfterUpdate(fp, data).Ok?
    ensures FloorPlanAfterUpdate(FloorPlanAfterUpdate(fp, data).value, data) == FloorPlanAfterUpdate(fp, data)
  {
    OrAbsorbs(data[FloorKey], fp.floor);
  }

  /** Submitting back the prefilled values leaves the Location as it was. */
  lemma ResubmittedPrefillKeepsLocation(dl: DeviceLocation, locations: map<LocationId, Location>,
                                        floorplans: map<FloorPlanId, FloorPlan>, data: Data)
    requires dl.location.Some? ==> dl.location.value in locations
    requires dl.floorplan.Some? ==> dl.floorplan.value in floorplans
    requires dl.location.Some?
    requires var p := Prefill(dl, locations, floorplans);
      forall k :: k in {NameKey, AddressKey, GeometryKey} ==> k in data && data[k] == p[k]
    ensures LocationAfterUpdate(locations[dl.location.value], data) == Ok(locations[dl.location.value])
  {
    var p := Prefill(dl, locations, floorplans);
    assert data[NameKey] == p[NameKey] && data[AddressKey] == p[AddressKey] && data[GeometryKey] == p[GeometryKey];
  }

  /**
    Submitting back the prefilled floor and image keeps the FloorPlan when
    its stored image is non-empty, and raises AttributeError when it is empty.
   */
  lemma ResubmittedPrefillFloorPlan(dl: DeviceLocation, locations: map<LocationId, Location>,
                                    floorplans: map<FloorPlanId, FloorPlan>, data: Data)
    requires dl.location.Some? ==> dl.location.value in locations
    requires dl.floorplan.Some? ==> dl.floorplan.value in floorplans
    requires dl.floorplan.Some?
    requires var p := Prefill(dl, locations, floorplans);
      forall k :: k in {FloorKey, ImageKey} ==> k in data && data[k] == p[k]
    ensures var fp := floorplans[dl.floorplan.value];
      FloorPlanAfterUpdate(fp, data) == if Truthy(fp.image) then Ok(fp) else Err(Raised(AttributeError("image")))
  {
    var p := Prefill(dl, locations, floorplans);
    assert data[FloorKey] == p[FloorKey] && data[ImageKey] == p[ImageKey];
  }

  // ---------------------------------------------------------------------
  // The form
  // ---------------------------------------------------------------------

  class DeviceLocationForm {
    /** The DeviceLocation being edited. */
    var instance: DeviceLocation
    /** `instance.device`, as loaded with the instance. */
    const device: Device
    var initial: Data
    var cleanedData: Data
    var errors: seq<FieldError>

    /** The instance's references exist in the database and `device` is its device. */
    ghost predicate Bound(db: Store)
      reads this, db
    {
      Linked(instance, db.devices, db.locations, db.floorplans) && db.devices[instance.device] == device
    }

    /**
      `__init__`: `base` is what the framework put in `initial`; `submitted`
      is the cleaned data the framework's field cleaning will produce.
     */
    constructor (instance: DeviceLocation, db: Store, base: Data, submitted: Data)
      requires Linked(instance, db.devices, db.locations, db.floorplans)
      ensures this.instance == instance && device == db.devices[instance.device]
      ensures initial == base + Prefill(instance, db.locations, db.floorplans)
      ensures cleanedData == submitted && errors == []
    {
      this.instance := instance;
      device := db.devices[instance.device];
      // `initial.update(...)` once for the Location, once for the FloorPlan
      var fromLocation: Data := map[];
      if instance.location.Some? {
        var location := db.locations[instance.location.value];
        fromLocation := map[LocationSelectionKey := Text("existing"), NameKey := location.name,
                            AddressKey := location.address, GeometryKey := location.geometry];
      }
      var fromFloorPlan: Data := map[];
      if instance.floorplan.Some? {
        var floorplan := db.floorplans[instance.floorplan.value];
        fromFloorPlan := map[FloorplanSelectionKey := Text("existing"), FloorKey := floorplan.floor, ImageKey := floorplan.image];
      }
      var init := fromLocation + fromFloorPlan;
      assert init == Prefill(instance, db.locations, db.floorplans);
      initial := base + init;
      cleanedData := submitted;
      errors := [];
    }

    /**
      One `for field in [...]` requiredness loop of `clean`. Each `add_error`
      records the error and drops the field from the cleaned data.
     */
    method RequireFields(fields: seq<Field>, t: string)
      requires NoDuplicates(fields)
      modifies this`cleanedData, this`errors
      ensures FormState(cleanedData, errors) == Require(old(FormState(cleanedData, errors)), fields, t)
    {
      var data, errs := cleanedData, errors;
      ghost var data0, errs0 := data, errs;
      var i := 0;
      while i < |fields|
        invariant 0 <= i <= |fields|
        invariant errs == errs0 + RequiredErrors(fields[..i], data0, t)
        invariant data == data0 - BlankFields(fields[..i], data0)
      {
        var field := fields[i];
        assert field !in fields[..i];
        RequireStep(fields, i, data0, t);
        RequireStepData(fields, i, data0);
        if field in data && !Truthy(data[field]) {
          errs := errs + [Required(field, t)];
          data := data - {field};
        }
        i := i + 1;
      }
      assert fields[..|fields|] == fields;
      cleanedData, errors := data, errs;
    }

    /** `clean`. */
    method Clean() returns (missing: Option<Field>)
      modifies this`cleanedData, this`errors
      ensures CleanResult(missing, FormState(cleanedData, errors))
           == Cleaned(old(FormState(cleanedData, errors)), instance.location.Some?, device.name)
    {
      if TypeKey !in cleanedData {
        return Some(TypeKey);
      }
      var t := cleanedData[TypeKey];
      if t == OUTDOOR || t == INDOOR {
        if LocationKey !in cleanedData {
          return Some(LocationKey);
        }
        if !Truthy(cleanedData[LocationKey]) {
          RequireFields(LocationFields, t.s);
        }
      }
      if t == INDOOR && FloorplanKey !in cleanedData {
        return Some(FloorplanKey);
      }
      if t == INDOOR && !Truthy(cleanedData[FloorplanKey]) {
        RequireFields(FloorPlanFields, t.s);
      } else if t == MOBILE && instance.location.None? {
        cleanedData := cleanedData[NameKey := Text(device.name)];
        cleanedData := cleanedData[AddressKey := Text("")];
        cleanedData := cleanedData[GeometryKey := Text("")];
        cleanedData := cleanedData[LocationSelectionKey := Text("new")];
      } else if t == MOBILE && instance.location.Some? {
        cleanedData := cleanedData[LocationSelectionKey := Text("existing")];
      }
      missing := None;
    }

    /** The "create or update location" half of `save`. */
    method SaveLocation(db: Store) returns (failure: Option<Failure>)
      requires db.Valid() && Bound(db)
      modifies this`instance, db
      ensures db.Valid() && Bound(db)
      ensures db.devices == old(db.devices) && db.floorplans == old(db.floorplans) && db.assignments == old(db.assignments)
      ensures db.nextFloorPlanId == old(db.nextFloorPlanId)
      ensures instance.(location := old(instance.location)) == old(instance)
      ensures failure == LocationSaveFailure(old(instance.location), old(db.locations), cleanedData, device.organization)
      ensures failure.None? ==> instance.location.Some?
      ensures old(instance.location).None? ==>
        var plan := LocationToCreate(cleanedData, device.organization);
        if plan.Err? then
          failure == Some(MissingKey(plan.error)) && db.locations == old(db.locations) && instance == old(instance)
        else if NameTaken(old(db.locations), plan.value.name, plan.value.organization, None) then
          && failure == Some(Raised(IntegrityError(UniqueNameOrganization)))
          && db.locations == old(db.locations) && instance == old(instance)
        else
          && failure.None?
          && old(db.nextLocationId) !in old(db.locations)
          && instance.location == Some(old(db.nextLocationId))
          && db.locations == old(db.locations)[old(db.nextLocationId) := plan.value]
      ensures old(instance.location).Some? ==>
        var id := old(instance.location).value;
        var plan := LocationAfterUpdate(old(db.locations)[id], cleanedData);
        && instance == old(instance)
        && if plan.Err? then
             failure == Some(MissingKey(plan.error)) && db.locations == old(db.locations)
           else if NameTaken(old(db.locations), plan.value.name, plan.value.organization, Some(id)) then
             failure == Some(Raised(IntegrityError(UniqueNameOrganization))) && db.locations == old(db.locations)
           else
             failure.None? && db.locations == old(db.locations)[id := plan.value]
    {
      if instance.location.None? {
        var plan := LocationToCreate(cleanedData, device.organization);
        if plan.Err? {
          return Some(MissingKey(plan.error));
        }
        var created := db.CreateLocation(plan.value);
        if created.Err? {
          return Some(Raised(created.error));
        }
        instance := instance.(location := Some(created.value));
      } else {
        var id := instance.location.value;
        var plan := LocationAfterUpdate(db.locations[id], cleanedData);
        if plan.Err? {
          return Some(MissingKey(plan.error));
        }
        var updated := db.UpdateLocation(id, plan.value);
        if updated.Some? {
          return Some(Raised(updated.value));
        }
      }
      failure := None;
    }

    /** The "create or update floor plan" half of `save`, which acts only for indoor locations. */
    method SaveFloorPlan(db: Store) returns (failure: Option<Failure>)
      requires db.Valid() && Bound(db) && instance.location.Some?
      modifies this`instance, db
      ensures db.Valid() && Bound(db)
      ensures db.devices == old(db.devices) && db.locations == old(db.locations) && db.assignments == old(db.assignments)
      ensures db.nextLocationId == old(db.nextLocationId)
      ensures instance.(floorplan := old(instance.floorplan)) == old(instance)
      ensures failure == FloorPlanSaveFailure(instance.location.value, old(instance.floorplan), old(db.floorplans),
                                              cleanedData, device.organization)
      ensures TypeKey !in cleanedData ==>
        failure == Some(MissingKey(TypeKey)) && db.floorplans == old(db.floorplans) && instance == old(instance)
      ensures TypeKey in cleanedData && cleanedData[TypeKey] != INDOOR ==>
        failure.None? && db.floorplans == old(db.floorplans) && instance == old(instance)
      ensures TypeKey in cleanedData && cleanedData[TypeKey] == INDOOR && old(instance.floorplan).None? ==>
        var plan := FloorPlanToCreate(cleanedData, device.organization, instance.location.value);
        if plan.Err? then
          failure == Some(plan.error) && db.floorplans == old(db.floorplans) && instance == old(instance)
        else if FloorTaken(old(db.floorplans), plan.value.location, plan.value.floor, None) then
          && failure == Some(Raised(IntegrityError(UniqueLocationFloor)))
          && db.floorplans == old(db.floorplans) && instance == old(instance)
        else
          && failure.None?
          && old(db.nextFloorPlanId) !in old(db.floorplans)
          && instance.floorplan == Some(old(db.nextFloorPlanId))
          && db.floorplans == old(db.floorplans)[old(db.nextFloorPlanId) := plan.value]
      ensures TypeKey in cleanedData && cleanedData[TypeKey] == INDOOR && old(instance.floorplan).Some? ==>
        var id := old(instance.floorplan).value;
        var plan := FloorPlanAfterUpdate(old(db.floorplans)[id], cleanedData);
        && instance == old(instance)
        && if plan.Err? then
             failure == Some(plan.error) && db.floorplans == old(db.floorplans)
           else if FloorTaken(old(db.floorplans), plan.value.location, plan.value.floor, Some(id)) then
             failure == Some(Raised(IntegrityError(UniqueLocationFloor))) && db.floorplans == old(db.floorplans)
           else
             failure.None? && db.floorplans == old(db.floorplans)[id := plan.value]
    {
      if TypeKey !in cleanedData {
        return Some(MissingKey(TypeKey));
      }
      if cleanedData[TypeKey] == INDOOR && instance.floorplan.None? {
        var plan := FloorPlanToCreate(cleanedData, device.organization, instance.location.value);
        if plan.Err? {
          return Some(plan.error);
        }
        var created := db.CreateFloorPlan(plan.value);
        if created.Err? {
          return Some(Raised(created.error));
        }
        instance := instance.(floorplan := Some(created.value));
      } else if cleanedData[TypeKey] == INDOOR {
        var id := instance.floorplan.value;
        var plan := FloorPlanAfterUpdate(db.floorplans[id], cleanedData);
        if plan.Err? {
          return Some(plan.error);
        }
        var updated := db.UpdateFloorPlan(id, plan.value);
        if updated.Some? {
          return Some(Raised(updated.value));
        }
      }
      failure := None;
    }

    /**
      `save`: resolve the Location, then the FloorPlan, then write the
      assignment. The framework's save refuses data that did not validate,
      but only at that last step, after the Location and FloorPlan writes.
     */
    method Save(db: Store) returns (failure: Option<Failure>)
      requires db.Valid() && Bound(db)
      modifies this`instance, db
      ensures db.Valid() && Bound(db)
      ensures db.devices == old(db.devices)
      ensures old(db.locations).Keys <= db.locations.Keys
      ensures old(db.floorplans).Keys <= db.floorplans.Keys
      ensures old(db.assignments).Keys <= db.assignments.Keys
      ensures instance.(location := old(instance.location), floorplan := old(instance.floorplan)) == old(instance)
      // The Location half fails: nothing is written.
      ensures var lf := LocationSaveFailure(old(instance.location), old(db.locations), cleanedData, device.organization);
        lf.Some? ==>
          && failure == lf && instance == old(instance)
          && db.locations == old(db.locations) && db.floorplans == old(db.floorplans)
          && db.assignments == old(db.assignments)
      // The Location half succeeds: it is written, whatever happens next.
      ensures LocationSaveFailure(old(instance.location), old(db.locations), cleanedData, device.organization).None? ==>
        && instance.location.Some?
        && (old(instance.location).None? ==>
              && old(db.nextLocationId) !in old(db.locations)
              && instance.location == Some(old(db.nextLocationId))
              && db.locations == old(db.locations)[old(db.nextLocationId) :=
                   Location(device.organization, cleanedData[NameKey], cleanedData[AddressKey], cleanedData[GeometryKey])])
        && (old(instance.location).Some? ==>
              var id := old(instance.location).value;
              && instance.location == old(instance.location)
              && LocationAfterUpdate(old(db.locations)[id], cleanedData).Ok?
              && db.locations == old(db.locations)[id := LocationAfterUpdate(old(db.locations)[id], cleanedData).value])
      // Then the FloorPlan half: it fails with nothing more written, or is written.
      ensures LocationSaveFailure(old(instance.location), old(db.locations), cleanedData, device.organization).None? ==>
        var ff := FloorPlanSaveFailure(instance.location.value, old(instance.floorplan), old(db.floorplans),
                                       cleanedData, device.organization);
        && (ff.Some? ==>
              && failure == ff && instance.floorplan == old(instance.floorplan)
              && db.floorplans == old(db.floorplans) && db.assignments == old(db.assignments))
        && (ff.None? ==> failure == (if errors != [] then Some(NotValidated) else None))
      ensures TypeKey in cleanedData && cleanedData[TypeKey] != INDOOR ==>
        db.floorplans == old(db.floorplans) && instance.floorplan == old(instance.floorplan)
      ensures LocationSaveFailure(old(instance.location), old(db.locations), cleanedData, device.organization).None? &&
              FloorPlanSaveFailure(instance.location.value, old(instance.floorplan), old(db.floorplans),
                                   cleanedData, device.organization).None? ==>
        && TypeKey in cleanedData
        && (cleanedData[TypeKey] == INDOOR && old(instance.floorplan).None? ==>
              && old(db.nextFloorPlanId) !in old(db.floorplans)
              && instance.floorplan == Some(old(db.nextFloorPlanId))
              && db.floorplans == old(db.floorplans)[old(db.nextFloorPlanId) :=
                   FloorPlan(device.organization, instance.location.value, cleanedData[FloorKey], cleanedData[ImageKey])])
        && (cleanedData[TypeKey] == INDOOR && old(instance.floorplan).Some? ==>
              var id := old(instance.floorplan).value;
              && instance.floorplan == old(instance.floorplan)
              && FloorPlanAfterUpdate(old(db.floorplans)[id], cleanedData).Ok?
              && db.floorplans == old(db.floorplans)[id := FloorPlanAfterUpdate(old(db.floorplans)[id], cleanedData).value])
      // Only a save that reaches the end with no recorded error writes the assignment.
      ensures failure.None? ==> errors == [] && db.assignments == old(db.assignments)[instance.device := instance]
      ensures failure.Some? ==> db.assignments == old(db.assignments)
    {
      failure := SaveLocation(db);
      if failure.Some? {
        return;
      }
      failure := SaveFloorPlan(db);
      if failure.Some? {
        return;
      }
      if errors != [] {
        return Some(NotValidated);
      }
      db.SaveAssignment(instance);
    }
  }
}
