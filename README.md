# Device geographic assignment: form validation and reconciliation

This project models, in Dafny, how the geo module of openwisp-controller
validates and stores a device's geographic assignment. An assignment
(`DeviceLocation`) links one device to a type (`outdoor`, `indoor` or
`mobile`), an optional `Location` and an optional `FloorPlan`.

- `values.dfy` (module `Values`) holds the dynamically typed values the form
  and the models pass around. It makes the language's truthiness explicit:
  `None`, `''`, `0`, an empty geometry and an empty image are all false. It
  also defines the `a or b` merge the form uses.
- `models.dfy` (module `Models`) holds the `Location`, `FloorPlan`, `Device`
  and `DeviceLocation` records and the choices of `DeviceLocation.type`. It
  states `_clean_location` and `DeviceLocation.clean` as pure checks and
  `organization_id` as a projection. The class `Store` is the database: it
  enforces the two unique-together constraints and the foreign keys, refuses
  to delete protected rows, and runs the mobile delete cascade of
  `DeviceLocation.delete`.
- `forms.dfy` (module `Forms`) holds the class `DeviceLocationForm`. Its
  constructor prefills `initial`. `Clean` mutates the cleaned data and
  accumulates per-field errors in two requiredness loops. `Save` creates
  or sparsely updates the Location and the FloorPlan, then writes the
  assignment. Each method is proved against a pure function (`Prefill`,
  `Cleaned`, `LocationToCreate`, `LocationAfterUpdate`, `FloorPlanToCreate`,
  `FloorPlanAfterUpdate`), and lemmas prove the form's promises about those
  functions.

The model follows the code as written, including behaviours that look
unintended:

- When an existing FloorPlan is updated with an empty image, the code falls
  back to `instance.location.image`. A Location has no `image` attribute,
  so this raises AttributeError: `FloorPlanAfterUpdate` returns that error,
  and `ResubmittedPrefillFloorPlan` shows that resubmitting an unchanged form
  with an empty stored image fails. A successful update therefore always
  stores the submitted image and never keeps the old one.
- `_clean_location` reads `self.floorplan.location` without checking that a
  floor plan is set. An indoor assignment without one raises AttributeError
  (`CleanLocation`).
- Floor `0`, the ground floor, is false. `clean` reports it as missing, and
  the sparse update never writes it (`GroundFloorReportedMissing`,
  `FloorPlanAfterUpdate`).
- Unguarded `cleaned_data[...]` lookups raise KeyError when the framework
  left a key out. These outcomes are modelled as `MissingKey`.
- The framework's `add_error` also removes the field from the cleaned
  data. `Clean` models that removal.
- The framework refuses to save a form whose data did not validate. That
  check only runs in the final `super().save`, after the Location and
  FloorPlan writes. `Save` models this order.

Some behaviours of the code are easy to assume otherwise:

- Location and FloorPlan rows are written with `objects.create` and
  `.save()`, which run no model validation. Only the database constraints
  apply to them.
- `clean` does not require the indoor position string. It also does not
  require the `floorplan` reference when a FloorPlan is already selected.
- An existing FloorPlan's image is replaced whenever the submitted image is
  non-empty, even if it is the same file.
- Deleting a Location cascades to its FloorPlans. `FloorPlan.location`
  declares no `on_delete`, and the framework version used here defaults to
  cascading. A FloorPlan that is still referenced blocks the Location's
  deletion (PROTECT).

## Model

| member | source | states |
|---|---|---|
| `Values.Or` | openwisp_controller/geo/admin.py:165-167 | `a or b` yields one of its operands; the result is true iff either operand is true, and a true first operand always wins and a false one yields the second operand, so `'' or None` is `None` |
| `Values.OrAbsorbs` | openwisp_controller/geo/admin.py:165-167 | merging the same submitted value again changes nothing, and merging a value with itself keeps it |
| `Models.ParseType` | openwisp_controller/geo/models.py:49-55 | an accepted type string is the stored value of the choice it returns |
| `Models.TypeDomain` | openwisp_controller/geo/models.py:49-55 | exactly "outdoor", "indoor" and "mobile" are accepted, each as its own choice, and every other string is rejected |
| `Models.ProtectorsGuardReferences` | openwisp_controller/geo/models.py:56-59 | with every assignment's references valid, no assignment protects a Location iff every assignment still has valid references once the Location and its FloorPlans are gone, both directions: PROTECT on either reference blocks exactly the deletions that would leave one dangling |
| `Models.FloorPlanCascade` | openwisp_controller/geo/models.py:27 | with every FloorPlan's Location existing, the FloorPlans kept after deleting a Location all point at a remaining Location, every FloorPlan whose Location remains is kept unchanged, and the deleted Location's FloorPlans are gone |
| `Models.LocationsUnique` | openwisp_controller/geo/models.py:18-19 | no two Locations share a (name, organization) pair |
| `Models.FloorPlansUnique` | openwisp_controller/geo/models.py:32-33 | no two FloorPlans share a (location, floor) pair |
| `Models.LocationWriteKeepsUnique` | openwisp_controller/geo/models.py:18-19 | writing a Location keeps the (name, organization) constraint iff no other Location holds its pair, both directions |
| `Models.FloorPlanWriteKeepsUnique` | openwisp_controller/geo/models.py:32-33 | writing a FloorPlan keeps the (location, floor) constraint iff no other FloorPlan holds its pair, both directions |
| `Models.Store.Valid` | openwisp_controller/geo/models.py:18-59 | the database invariant: both unique-together constraints, every FloorPlan's Location exists, every assignment's device, Location and FloorPlan exist, and the id counters are fresh |
| `Models.OrganizationFollowsDevice` | openwisp_controller/geo/models.py:82-84 | states the `organization_id` property about `OrganizationId`: an assignment's organization is its device's, whatever its type, location, floor plan or position |
| `Models.CleanLocation` | openwisp_controller/geo/models.py:63-65 | non-indoor assignments always pass; an indoor one with a floor plan passes iff the floor plan's location is its location, and otherwise fails with the invalid-floorplan ValidationError; an indoor one without a floor plan raises AttributeError |
| `Models.CleanDeviceLocation` | openwisp_controller/geo/models.py:67-71 | the location's organization is always checked and checked first; once it passes, a set floor plan of another organization gives the floor plan mismatch error, and otherwise the result is exactly that of `_clean_location` (the invalid-floorplan ValidationError or the AttributeError); the assignment passes iff the location check passes, the floor plan check passes when a floor plan is set, and `_clean_location` passes |
| `Models.FloorplanOrgCheckedOnlyWhenSet` | openwisp_controller/geo/models.py:67-70 | without a floor plan, the verdict does not depend on how floor plan organizations would be judged |
| `Models.CleanIndoorConsistent` | openwisp_controller/geo/models.py:63-71 | an indoor assignment that passes `clean` has a location and a floor plan, and the floor plan belongs to that location |
| `Models.Store.CreateLocation` | openwisp_controller/geo/models.py:18-19 | a new Location is inserted under a fresh id iff no Location has its (name, organization); otherwise IntegrityError and nothing changes; uniqueness is preserved |
| `Models.Store.UpdateLocation` | openwisp_controller/geo/models.py:18-19 | an existing Location is rewritten iff no other Location has its new (name, organization); otherwise IntegrityError and nothing changes |
| `Models.Store.CreateFloorPlan` | openwisp_controller/geo/models.py:27-33 | a new FloorPlan is inserted iff its Location exists and no FloorPlan has its (location, floor); otherwise IntegrityError and nothing changes |
| `Models.Store.UpdateFloorPlan` | openwisp_controller/geo/models.py:27-33 | an existing FloorPlan is rewritten iff its Location exists and no other FloorPlan has its (location, floor) |
| `Models.Store.SaveAssignment` | openwisp_controller/geo/models.py:54-61 | the assignment row of its device is written; all references stay valid |
| `Models.Store.DeleteLocation` | openwisp_controller/geo/models.py:56-59 | deletion fails with ProtectedError iff some assignment protects the Location; otherwise the Location and its FloorPlans are removed and nothing else changes |
| `Models.Store.DeleteFloorPlan` | openwisp_controller/geo/models.py:58-59 | deletion fails with ProtectedError iff some assignment references the FloorPlan; otherwise only it is removed |
| `Models.Store.DeleteDeviceLocation` | openwisp_controller/geo/models.py:73-80 | the assignment is removed first. A mobile one then deletes its Location: AttributeError without one, ProtectedError if it is still in use. Outdoor and indoor leave Locations and FloorPlans as they were |
| `Forms.RequiredErrors` | openwisp_controller/geo/admin.py:134-138 | a requiredness loop reports only listed fields that are present and empty, each carrying the submitted type, and never more errors than listed fields |
| `Forms.RequiredErrorsExactlyOnce` | openwisp_controller/geo/admin.py:134-144 | in a list without repeats, each present and empty field gets exactly one error and every other field none |
| `Forms.FieldListsDistinct` | openwisp_controller/geo/admin.py:134-140 | the two requiredness lists repeat no field and share none |
| `Forms.Cleaned` | openwisp_controller/geo/admin.py:129-151 | `clean` keeps every earlier error and only appends |
| `Forms.CleanedOnlyReports` | openwisp_controller/geo/admin.py:129-144 | every new error is on a location or floor plan field and carries the submitted type |
| `Forms.CleanedKeepsValues` | openwisp_controller/geo/admin.py:129-151 | outside mobile no value is written: the cleaned data only loses fields |
| `Forms.LocationFieldsRequired` | openwisp_controller/geo/admin.py:132-138 | outdoor or indoor with no location chosen: each of selection, name, address and geometry that is present and empty gets exactly one error; absent or filled fields get none |
| `Forms.ChosenLocationNoLocationErrors` | openwisp_controller/geo/admin.py:133-138 | outdoor or indoor with a Location chosen: `clean` adds no error on selection, name, address or geometry |
| `Forms.ChosenFloorPlanNoFloorPlanErrors` | openwisp_controller/geo/admin.py:139-144 | indoor with a FloorPlan chosen: `clean` adds no error on selection, floor or image |
| `Forms.FloorPlanFieldsRequired` | openwisp_controller/geo/admin.py:139-144 | indoor with no floor plan chosen: each of selection, floor and image that is present and empty gets exactly one error |
| `Forms.GroundFloorReportedMissing` | openwisp_controller/geo/admin.py:139-144 | floor 0 is reported as a missing floor |
| `Forms.MobileWithoutLocation` | openwisp_controller/geo/admin.py:145-149 | mobile without a Location: name becomes the device name, address and geometry become '', selection becomes "new", and no error is added |
| `Forms.MobileWithLocation` | openwisp_controller/geo/admin.py:150-151 | mobile with a Location: only the selection is forced to "existing", every other value is kept, and no error is added |
| `Forms.OutdoorIgnoresFloorPlan` | openwisp_controller/geo/admin.py:133-144 | an outdoor submission never reports a floor plan field and never looks up the floor plan key |
| `Forms.Prefill` | openwisp_controller/geo/admin.py:110-127 | with a Location: selection "existing" and its name, address and geometry; with a FloorPlan: selection "existing" and its floor and image; without one, those keys are not set; no other key is set |
| `Forms.LocationToCreate` | openwisp_controller/geo/admin.py:157-163 | a new Location has the device's organization and the submitted name, address and geometry; a missing key is a KeyError on it |
| `Forms.LocationAfterUpdate` | openwisp_controller/geo/admin.py:164-168 | for each of name, address and geometry: a true submitted value replaces the stored one, and a false one keeps it. The organization is kept, a true field is never blanked, and an all-empty submission changes nothing |
| `Forms.FloorPlanToCreate` | openwisp_controller/geo/admin.py:169-175 | a new FloorPlan has the device's organization, the resolved Location and the submitted floor and image |
| `Forms.FloorPlanAfterUpdate` | openwisp_controller/geo/admin.py:176-179 | a true submitted floor replaces the stored one and a false one keeps it, so floor 0 is never written; a missing floor or image key is a KeyError on that key; an empty submitted image raises AttributeError; a successful update stores the submitted image and keeps location and organization |
| `Forms.LocationSaveFailure` | openwisp_controller/geo/admin.py:157-168 | the Location half of save fails with a KeyError on a name, address or geometry key the data lacks, or with the (name, organization) IntegrityError; when it does not fail, all three keys are present |
| `Forms.FloorPlanSaveFailure` | openwisp_controller/geo/admin.py:169-179 | the FloorPlan half fails with a KeyError on `type` iff the type is missing. A non-indoor type never fails. Indoor fails with a KeyError, the image AttributeError or the (location, floor) IntegrityError |
| `Forms.LocationUpdateIdempotent` | openwisp_controller/geo/admin.py:164-168 | saving the same submission twice leaves the Location as after the first save |
| `Forms.FloorPlanUpdateIdempotent` | openwisp_controller/geo/admin.py:176-179 | saving the same submission twice leaves the FloorPlan as after the first save |
| `Forms.ResubmittedPrefillKeepsLocation` | openwisp_controller/geo/admin.py:112-168 | submitting the prefilled name, address and geometry back leaves the Location unchanged |
| `Forms.ResubmittedPrefillFloorPlan` | openwisp_controller/geo/admin.py:121-179 | submitting the prefilled floor and image back keeps the FloorPlan when its image is non-empty and raises AttributeError when it is empty |
| `Forms.DeviceLocationForm.constructor` | openwisp_controller/geo/admin.py:107-127 | `initial` is the framework's initial values overridden by `Prefill` of the instance |
| `Forms.DeviceLocationForm.RequireFields` | openwisp_controller/geo/admin.py:134-138 | the loop appends exactly `RequiredErrors` and drops exactly the reported fields from the cleaned data |
| `Forms.DeviceLocationForm.Clean` | openwisp_controller/geo/admin.py:129-151 | the missing key, the new cleaned data and the errors are those of `Cleaned` for the instance's Location and device name |
| `Forms.DeviceLocationForm.SaveLocation` | openwisp_controller/geo/admin.py:156-168 | the failure is `LocationSaveFailure` of the old state. Without a Location: exactly one Location is created and referenced, or KeyError / IntegrityError with nothing written. With one: it is rewritten with `LocationAfterUpdate` under the same id. FloorPlans and assignments are untouched |
| `Forms.DeviceLocationForm.SaveFloorPlan` | openwisp_controller/geo/admin.py:169-179 | the failure is `FloorPlanSaveFailure` on the resolved Location. Indoor without a FloorPlan: one is created on the resolved Location and referenced. Indoor with one: it is rewritten with `FloorPlanAfterUpdate`. Any other type changes nothing. Locations are untouched |
| `Forms.DeviceLocationForm.Save` | openwisp_controller/geo/admin.py:153-181 | save never deletes a row and keeps the database valid. If `LocationSaveFailure` holds, save fails with it and writes nothing. Otherwise the Location is written. If `FloorPlanSaveFailure` then holds, save fails with it and nothing more is written. Otherwise the FloorPlan is written. Save then fails with NotValidated iff errors were recorded, with those writes in place, and succeeds otherwise. Only success writes the assignment row. Non-indoor types never touch a FloorPlan |

## Left out

- `LocationAdmin`, `FloorAdmin`, `DeviceLocationInline`, `DeviceAdmin`, URL routing and admin registration: framework configuration with no logic.
- `json_view`: a read projection whose geometry serialisation is a foreign geometry library's.
- `FloorPlan.__str__`: it depends on a humanize library's ordinal formatting.
- `FloorPlan.clean` and `FloorPlan.save` (models.py:40-44): the floor plan's own organization check is not run by the form's save path, because `objects.create` and `.save()` do not validate.
- The organization check of the multitenancy mixin: its code is not part of this model. `CleanDeviceLocation` takes it as an arbitrary function of the related row's organization (or none) and the assignment's organization.
- Geometry and image internals, such as storage, widgets and thumbnails. A geometry and an image are opaque values with an emptiness test.
- The framework's field cleaning, which decides which keys reach the cleaned data and their values. This includes an image field falling back to its initial file. The cleaned data is an input of the form's constructor.
- `Forms.DeviceLocationForm.constructor` starts `errors` empty. Errors the framework records before `clean` are not modelled. These are field-cleaning errors, such as an indoor position longer than the column allows. Neither are the errors of the model validation after `clean`, which runs `DeviceLocation.clean`. So `Save`'s NotValidated outcome reflects only the errors `clean` records.
- The framework step that copies cleaned values into the instance before `save`. `Save` takes the instance as that step left it.
- The wiring that runs `clean`, then `DeviceLocation.clean`, then `save` in one request. Each step is modelled on its own.
- Transactions: a failure part-way through `Save` or `DeleteDeviceLocation` leaves the earlier writes in place. A surrounding request transaction would roll them back.
- Column constraints other than the unique-together pairs and the foreign keys: NOT NULL, maximum lengths, the small-integer range of `floor`, and the `type` choices at the database level.
- The `commit` argument of `save`: the source always saves with commit.
- Timestamps, and the primary keys of assignments. Assignments are keyed by their device, which makes the one-to-one reference structural.
