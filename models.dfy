/**
  The geo models: Location, FloorPlan and DeviceLocation (the assignment of
  a device to a location, a floor plan and a location type), the checks a
  DeviceLocation runs before it is saved, and the database that holds the
  rows and enforces their unique-together and protected references.
 */
module Models {
  import opened Values

  type OrgId = nat
  type DeviceId = nat
  type LocationId = nat
  type FloorPlanId = nat

  /** The choices of `DeviceLocation.type`. */
  datatype LocationType = Outdoor | Indoor | Mobile

  /** The stored value of each choice. */
  function TypeName(t: LocationType): string {
    match t
    case Outdoor => "outdoor"
    case Indoor => "indoor"
    case Mobile => "mobile"
  }

  /** Validation of a submitted `type` against the choices. */
  function ParseType(s: string): (r: Option<LocationType>)
    ensures r.Some? ==> TypeName(r.value) == s
  {
    if s == "outdoor" then Some(Outdoor)
    else if s == "indoor" then Some(Indoor)
    else if s == "mobile" then Some(Mobile)
    else None
  }

  /** Exactly the three stored values are accepted, each naming its own choice. */
  lemma TypeDomain(s: string, t: LocationType)
    ensures ParseType(s) == Some(t) <==> s == TypeName(t)
    ensures ParseType(s).None? <==> s !in {"outdoor", "indoor", "mobile"}
  {
  }

  datatype Device = Device(name: string, organization: OrgId)

  /** A named place of one organization. */
  datatype Location = Location(organization: OrgId, name: Value, address: Value, geometry: Value)

  /** An image of one floor of one Location. */
  datatype FloorPlan = FloorPlan(organization: OrgId, location: LocationId, floor: Value, image: Value)

  /** The geographic information of one device (one-to-one with the device). */
  datatype DeviceLocation = DeviceLocation(
    device: DeviceId,
    locationType: LocationType,
    location: Option<LocationId>,
    floorplan: Option<FloorPlanId>,
    indoor: Option<string>)

  /** What the database or a model check can raise. */
  datatype Error =
    | ValidationError(issue: Issue)
    | IntegrityError(constraint: Constraint)
    | ProtectedError
    | AttributeError(attribute: string)

  datatype Issue =
    | OrganizationMismatch(field: Relation)
    | InvalidFloorplan          // "Invalid floorplan (belongs to a different location)"

  datatype Relation = LocationRelation | FloorplanRelation

  datatype Constraint = UniqueNameOrganization | UniqueLocationFloor | ForeignKey

  // ---------------------------------------------------------------------
  // Table invariants
  // ---------------------------------------------------------------------

  /** Another Location than `except` already has this (name, organization). */
  predicate NameTaken(locations: map<LocationId, Location>, name: Value, org: OrgId, except: Option<LocationId>) {
    exists id :: id in locations && Some(id) != except
      && locations[id].name == name && locations[id].organization == org
  }

  /** `unique_together = ('name', 'organization')`. */
  predicate LocationsUnique(locations: map<LocationId, Location>) {
    forall i, j :: i in locations && j in locations && i != j ==>
      !(locations[i].name == locations[j].name && locations[i].organization == locations[j].organization)
  }

  /** Another FloorPlan than `except` already has this (location, floor). */
  predicate FloorTaken(floorplans: map<FloorPlanId, FloorPlan>, location: LocationId, floor: Value, except: Option<FloorPlanId>) {
    exists id :: id in floorplans && Some(id) != except
      && floorplans[id].location == location && floorplans[id].floor == floor
  }

  /** `unique_together = ('location', 'floor')`. */
  predicate FloorPlansUnique(floorplans: map<FloorPlanId, FloorPlan>) {
    forall i, j :: i in floorplans && j in floorplans && i != j ==>
      !(floorplans[i].location == floorplans[j].location && floorplans[i].floor == floorplans[j].floor)
  }

  /**
    Writing a Location under `id` (a new id, or an existing row) keeps the
    `(name, organization)` constraint exactly when no other row holds its pair:
    the check the database runs on every insert and update.
   */
  lemma LocationWriteKeepsUnique(locations: map<LocationId, Location>, id: LocationId, loc: Location)
    requires LocationsUnique(locations)
    ensures LocationsUnique(locations[id := loc]) <==> !NameTaken(locations, loc.name, loc.organization, Some(id))
  {
    var after := locations[id := loc];
    if NameTaken(locations, loc.name, loc.organization, Some(id)) {
      var j :| j in locations && Some(j) != Some(id) && locations[j].name == loc.name && locations[j].organization == loc.organization;
      assert j in after && id in after && after[j] == locations[j] && after[id] == loc;
    }
  }

  /** The same for a FloorPlan and the `(location, floor)` constraint. */
  lemma FloorPlanWriteKeepsUnique(floorplans: map<FloorPlanId, FloorPlan>, id: FloorPlanId, fp: FloorPlan)
    requires FloorPlansUnique(floorplans)
    ensures FloorPlansUnique(floorplans[id := fp]) <==> !FloorTaken(floorplans, fp.location, fp.floor, Some(id))
  {
    var after := floorplans[id := fp];
    if FloorTaken(floorplans, fp.location, fp.floor, Some(id)) {
      var j :| j in floorplans && Some(j) != Some(id) && floorplans[j].location == fp.location && floorplans[j].floor == fp.floor;
      assert j in after && id in after && after[j] == floorplans[j] && after[id] == fp;
    }
  }

  /** Every reference of an assignment points at an existing row. */
  predicate Linked(dl: DeviceLocation, devices: map<DeviceId, Device>,
                   locations: map<LocationId, Location>, floorplans: map<FloorPlanId, FloorPlan>) {
    && dl.device in devices
    && (dl.location.Some? ==> dl.location.value in locations)
    && (dl.floorplan.Some? ==> dl.floorplan.value in floorplans)
  }

  /**
    The assignments that keep Location `id` from being deleted: those that
    reference it (PROTECT), and those that reference one of its FloorPlans,
    which a deletion of the Location would cascade to (PROTECT again).
   */
  function LocationProtectors(assignments: map<DeviceId, DeviceLocation>,
                              floorplans: map<FloorPlanId, FloorPlan>, id: LocationId): (r: set<DeviceId>)
    ensures forall d :: d in r <==> (d in assignments &&
      (assignments[d].location == Some(id) ||
       (assignments[d].floorplan.Some? && assignments[d].floorplan.value in floorplans &&
        floorplans[assignments[d].floorplan.value].location == id)))
  {
    set d | d in assignments &&
      (assignments[d].location == Some(id) ||
       (assignments[d].floorplan.Some? && assignments[d].floorplan.value in floorplans &&
        floorplans[assignments[d].floorplan.value].location == id))
  }

  /** The FloorPlans that survive the deletion of Location `id` (the location reference cascades). */
  function FloorPlansWithout(floorplans: map<FloorPlanId, FloorPlan>, id: LocationId): (r: map<FloorPlanId, FloorPlan>)
    ensures forall f :: f in r <==> f in floorplans && floorplans[f].location != id
    ensures forall f :: f in r ==> r[f] == floorplans[f]
  {
    map f | f in floorplans && floorplans[f].location != id :: floorplans[f]
  }

  /**
    Deleting a Location blocks exactly when it would leave a dangling
    reference: with every assignment linked before, no assignment protects
    the Location iff every assignment is still linked once the Location and
    its FloorPlans are gone.
   */
  lemma ProtectorsGuardReferences(assignments: map<DeviceId, DeviceLocation>, devices: map<DeviceId, Device>,
                                  locations: map<LocationId, Location>, floorplans: map<FloorPlanId, FloorPlan>,
                                  id: LocationId)
    requires forall d :: d in assignments ==> Linked(assignments[d], devices, locations, floorplans)
    ensures LocationProtectors(assignments, floorplans, id) == {} <==>
      forall d :: d in assignments ==> Linked(assignments[d], devices, locations - {id}, FloorPlansWithout(floorplans, id))
  {
    var protectors := LocationProtectors(assignments, floorplans, id);
    var kept := FloorPlansWithout(floorplans, id);
    if protectors != {} {
      var d :| d in protectors;
      var dl := assignments[d];
      if dl.location == Some(id) {
        assert dl.location.value !in locations - {id};
      } else {
        assert dl.floorplan.value !in kept;
      }
      assert !Linked(dl, devices, locations - {id}, kept);
    } else {
      forall d | d in assignments
        ensures Linked(assignments[d], devices, locations - {id}, kept)
      {
        assert d !in protectors;
      }
    }
  }

  /**
    The cascade through the FloorPlan's location reference: with every
    FloorPlan pointing at an existing Location, the FloorPlans kept after
    deleting Location `id` all point at a remaining Location, and every
    FloorPlan whose Location remains is kept unchanged.
   */
  lemma FloorPlanCascade(floorplans: map<FloorPlanId, FloorPlan>, locations: map<LocationId, Location>, id: LocationId)
    requires forall f :: f in floorplans ==> floorplans[f].location in locations
    ensures forall f :: f in FloorPlansWithout(floorplans, id) ==>
      FloorPlansWithout(floorplans, id)[f].location in locations - {id}
    ensures forall f :: f in floorplans && floorplans[f].location in locations - {id} ==>
      f in FloorPlansWithout(floorplans, id) && FloorPlansWithout(floorplans, id)[f] == floorplans[f]
    ensures forall f :: f in floorplans && floorplans[f].location == id ==> f !in FloorPlansWithout(floorplans, id)
  {
  }

  // ---------------------------------------------------------------------
  // DeviceLocation checks
  // ---------------------------------------------------------------------

  /** The `organization_id` property: an assignment has no organization of its own. */
  function OrganizationId(dl: DeviceLocation, devices: map<DeviceId, Device>): (r: OrgId)
    requires dl.device in devices
  {
    devices[dl.device].organization
  }

  /** Whatever else the assignment holds, its organization is its device's. */
  lemma OrganizationFollowsDevice(dl: DeviceLocation, devices: map<DeviceId, Device>,
                                  t: LocationType, l: Option<LocationId>, f: Option<FloorPlanId>, i: Option<string>)
    requires dl.device in devices
    ensures OrganizationId(dl.(locationType := t, location := l, floorplan := f, indoor := i), devices)
         == OrganizationId(dl, devices) == devices[dl.device].organization
  {
  }

  /**
    `_clean_location`: an indoor assignment must use a floor plan of its own
    location. The floor plan is dereferenced without a check, so an indoor
    assignment without one raises AttributeError.
   */
  function CleanLocation(dl: DeviceLocation, floorplans: map<FloorPlanId, FloorPlan>): (r: Option<Error>)
    requires dl.floorplan.Some? ==> dl.floorplan.value in floorplans
    ensures dl.locationType != Indoor ==> r.None?
    ensures dl.locationType == Indoor && dl.floorplan.None? ==> r == Some(AttributeError("location"))
    ensures dl.locationType == Indoor && dl.floorplan.Some? ==>
      (r.None? <==> dl.location == Some(floorplans[dl.floorplan.value].location))
    ensures dl.locationType == Indoor && dl.floorplan.Some? ==>
      r == (if dl.location == Some(floorplans[dl.floorplan.value].location) then None
            else Some(ValidationError(InvalidFloorplan)))
    ensures r.Some? ==> r.value in {ValidationError(InvalidFloorplan), AttributeError("location")}
  {
    if dl.locationType != Indoor then None
    else if dl.floorplan.None? then Some(AttributeError("location"))
    else if dl.location != Some(floorplans[dl.floorplan.value].location) then Some(ValidationError(InvalidFloorplan))
    else None
  }

  /**
    `DeviceLocation.clean`. `orgCompatible(related, own)` stands for the
    organization check of the multitenancy mixin, given the organization of
    the related row (None when there is none) and the assignment's own.
   */
  function CleanDeviceLocation(dl: DeviceLocation, devices: map<DeviceId, Device>,
                               locations: map<LocationId, Location>, floorplans: map<FloorPlanId, FloorPlan>,
                               orgCompatible: (Option<OrgId>, OrgId) -> bool): (r: Option<Error>)
    requires Linked(dl, devices, locations, floorplans)
    ensures var own := OrganizationId(dl, devices);
      && (!orgCompatible(LocationOrg(dl, locations), own) ==>
            r == Some(ValidationError(OrganizationMismatch(LocationRelation))))
      && (orgCompatible(LocationOrg(dl, locations), own) && dl.floorplan.Some? &&
          !orgCompatible(Some(floorplans[dl.floorplan.value].organization), own) ==>
            r == Some(ValidationError(OrganizationMismatch(FloorplanRelation))))
      && (orgCompatible(LocationOrg(dl, locations), own) &&
          (dl.floorplan.Some? ==> orgCompatible(Some(floorplans[dl.floorplan.value].organization), own)) ==>
            r == CleanLocation(dl, floorplans))
      && (r.None? <==>
            && orgCompatible(LocationOrg(dl, locations), own)
            && (dl.floorplan.Some? ==> orgCompatible(Some(floorplans[dl.floorplan.value].organization), own))
            && CleanLocation(dl, floorplans).None?)
  {
    var own := OrganizationId(dl, devices);
    if !orgCompatible(LocationOrg(dl, locations), own) then
      Some(ValidationError(OrganizationMismatch(LocationRelation)))
    else if dl.floorplan.Some? && !orgCompatible(Some(floorplans[dl.floorplan.value].organization), own) then
      Some(ValidationError(OrganizationMismatch(FloorplanRelation)))
    else
      CleanLocation(dl, floorplans)
  }

  /** The organization of the referenced Location, if any. */
  function LocationOrg(dl: DeviceLocation, locations: map<LocationId, Location>): Option<OrgId>
    requires dl.location.Some? ==> dl.location.value in locations
  {
    if dl.location.Some? then Some(locations[dl.location.value].organization) else None
  }

  /**
    Without a floor plan the floor plan's organization is never consulted:
    two organization checks that agree on the location give the same verdict.
   */
  lemma FloorplanOrgCheckedOnlyWhenSet(dl: DeviceLocation, devices: map<DeviceId, Device>,
                                       locations: map<LocationId, Location>, floorplans: map<FloorPlanId, FloorPlan>,
                                       c1: (Option<OrgId>, OrgId) -> bool, c2: (Option<OrgId>, OrgId) -> bool)
    requires Linked(dl, devices, locations, floorplans)
    requires dl.floorplan.None?
    requires c1(LocationOrg(dl, locations), OrganizationId(dl, devices)) == c2(LocationOrg(dl, locations), OrganizationId(dl, devices))
    ensures CleanDeviceLocation(dl, devices, locations, floorplans, c1) == CleanDeviceLocation(dl, devices, locations, floorplans, c2)
  {
  }

  /** Every indoor assignment that passes the checks uses a floor plan of its own location. */
  lemma CleanIndoorConsistent(dl: DeviceLocation, devices: map<DeviceId, Device>,
                              locations: map<LocationId, Location>, floorplans: map<FloorPlanId, FloorPlan>,
                              orgCompatible: (Option<OrgId>, OrgId) -> bool)
    requires Linked(dl, devices, locations, floorplans)
    requires CleanDeviceLocation(dl, devices, locations, floorplans, orgCompatible).None?
    requires dl.locationType == Indoor
    ensures dl.floorplan.Some? && dl.location.Some?
    ensures floorplans[dl.floorplan.value].location == dl.location.value
  {
  }

  // ---------------------------------------------------------------------
  // The database
  // ---------------------------------------------------------------------

  /**
    The rows of the geo tables. Ids of new rows come from per-table counters.
    Assignments are keyed by their device: the device reference is one-to-one.
   */
  class Store {
    var devices: map<DeviceId, Device>
    var locations: map<LocationId, Location>
    var floorplans: map<FloorPlanId, FloorPlan>
    var assignments: map<DeviceId, DeviceLocation>
    var nextLocationId: LocationId
    var nextFloorPlanId: FloorPlanId

    /** The constraints the database enforces. */
    ghost predicate Valid()
      reads this
    {
      && LocationsUnique(locations)
      && FloorPlansUnique(floorplans)
      && (forall id :: id in locations ==> id < nextLocationId)
      && (forall id :: id in floorplans ==> id < nextFloorPlanId)
      && (forall id :: id in floorplans ==> floorplans[id].location in locations)
      && (forall d :: d in assignments ==>
            assignments[d].device == d && Linked(assignments[d], devices, locations, floorplans))
    }

    constructor (devices: map<DeviceId, Device>)
      ensures Valid()
      ensures this.devices == devices
      ensures locations == map[] && floorplans == map[] && assignments == map[]
    {
      this.devices := devices;
      locations, floorplans, assignments := map[], map[], map[];
      nextLocationId, nextFloorPlanId := 0, 0;
    }

    /** `Location.objects.create(...)`: inserts a row unless its (name, organization) is taken. */
    method CreateLocation(loc: Location) returns (r: Result<LocationId, Error>)
      requires Valid()
      modifies this
      ensures Valid()
      ensures devices == old(devices) && floorplans == old(floorplans) && assignments == old(assignments)
      ensures nextFloorPlanId == old(nextFloorPlanId)
      ensures NameTaken(old(locations), loc.name, loc.organization, None) ==>
        r == Err(IntegrityError(UniqueNameOrganization)) && locations == old(locations) && nextLocationId == old(nextLocationId)
      ensures !NameTaken(old(locations), loc.name, loc.organization, None) ==>
        && r == Ok(old(nextLocationId))
        && old(nextLocationId) !in old(locations)
        && locations == old(locations)[old(nextLocationId) := loc]
        && nextLocationId == old(nextLocationId) + 1
    {
      if NameTaken(locations, loc.name, loc.organization, None) {
        return Err(IntegrityError(UniqueNameOrganization));
      }
      r := Ok(nextLocationId);
      locations := locations[nextLocationId := loc];
      nextLocationId := nextLocationId + 1;
    }

    /** `location.save()` of an existing row: rewrites it unless another row has its (name, organization). */
    method UpdateLocation(id: LocationId, loc: Location) returns (failure: Option<Error>)
      requires Valid() && id in locations
      modifies this
      ensures Valid()
      ensures devices == old(devices) && floorplans == old(floorplans) && assignments == old(assignments)
      ensures nextLocationId == old(nextLocationId) && nextFloorPlanId == old(nextFloorPlanId)
      ensures NameTaken(old(locations), loc.name, loc.organization, Some(id)) ==>
        failure == Some(IntegrityError(UniqueNameOrganization)) && locations == old(locations)
      ensures !NameTaken(old(locations), loc.name, loc.organization, Some(id)) ==>
        failure.None? && locations == old(locations)[id := loc]
    {
      if NameTaken(locations, loc.name, loc.organization, Some(id)) {
        return Some(IntegrityError(UniqueNameOrganization));
      }
      locations := locations[id := loc];
      failure := None;
    }

    /** `FloorPlan.objects.create(...)`: inserts a row of an existing Location unless its (location, floor) is taken. */
    method CreateFloorPlan(fp: FloorPlan) returns (r: Result<FloorPlanId, Error>)
      requires Valid()
      modifies this
      ensures Valid()
      ensures devices == old(devices) && locations == old(locations) && assignments == old(assignments)
      ensures nextLocationId == old(nextLocationId)
      ensures fp.location !in old(locations) ==>
        r == Err(IntegrityError(ForeignKey)) && floorplans == old(floorplans) && nextFloorPlanId == old(nextFloorPlanId)
      ensures fp.location in old(locations) && FloorTaken(old(floorplans), fp.location, fp.floor, None) ==>
        r == Err(IntegrityError(UniqueLocationFloor)) && floorplans == old(floorplans) && nextFloorPlanId == old(nextFloorPlanId)
      ensures fp.location in old(locations) && !FloorTaken(old(floorplans), fp.location, fp.floor, None) ==>
        && r == Ok(old(nextFloorPlanId))
        && old(nextFloorPlanId) !in old(floorplans)
        && floorplans == old(floorplans)[old(nextFloorPlanId) := fp]
        && nextFloorPlanId == old(nextFloorPlanId) + 1
    {
      if fp.location !in locations {
        return Err(IntegrityError(ForeignKey));
      }
      if FloorTaken(floorplans, fp.location, fp.floor, None) {
        return Err(IntegrityError(UniqueLocationFloor));
      }
      r := Ok(nextFloorPlanId);
      floorplans := floorplans[nextFloorPlanId := fp];
      nextFloorPlanId := nextFloorPlanId + 1;
    }

    /** `floorplan.save()` of an existing row. */
    method UpdateFloorPlan(id: FloorPlanId, fp: FloorPlan) returns (failure: Option<Error>)
      requires Valid() && id in floorplans
      modifies this
      ensures Valid()
      ensures devices == old(devices) && locations == old(locations) && assignments == old(assignments)
      ensures nextLocationId == old(nextLocationId) && nextFloorPlanId == old(nextFloorPlanId)
      ensures fp.location !in old(locations) ==>
        failure == Some(IntegrityError(ForeignKey)) && floorplans == old(floorplans)
      ensures fp.location in old(locations) && FloorTaken(old(floorplans), fp.location, fp.floor, Some(id)) ==>
        failure == Some(IntegrityError(UniqueLocationFloor)) && floorplans == old(floorplans)
      ensures fp.location in old(locations) && !FloorTaken(old(floorplans), fp.location, fp.floor, Some(id)) ==>
        failure.None? && floorplans == old(floorplans)[id := fp]
    {
      if fp.location !in locations {
        return Some(IntegrityError(ForeignKey));
      }
      if FloorTaken(floorplans, fp.location, fp.floor, Some(id)) {
        return Some(IntegrityError(UniqueLocationFloor));
      }
      floorplans := floorplans[id := fp];
      failure := None;
    }

    /** `DeviceLocation.save()`: writes the assignment row of its device. */
    method SaveAssignment(dl: DeviceLocation)
      requires Valid() && Linked(dl, devices, locations, floorplans)
      modifies this
      ensures Valid()
      ensures devices == old(devices) && locations == old(locations) && floorplans == old(floorplans)
      ensures nextLocationId == old(nextLocationId) && nextFloorPlanId == old(nextFloorPlanId)
      ensures assignments == old(assignments)[dl.device := dl]
    {
      assignments := assignments[dl.device := dl];
    }

    /**
      `location.delete()`: refused while an assignment protects it; otherwise
      the Location goes and its FloorPlans go with it.
     */
    method DeleteLocation(id: LocationId) returns (failure: Option<Error>)
      requires Valid() && id in locations
      modifies this
      ensures Valid()
      ensures devices == old(devices) && assignments == old(assignments)
      ensures nextLocationId == old(nextLocationId) && nextFloorPlanId == old(nextFloorPlanId)
      ensures LocationProtectors(old(assignments), old(floorplans), id) != {} ==>
        failure == Some(ProtectedError) && locations == old(locations) && floorplans == old(floorplans)
      ensures LocationProtectors(old(assignments), old(floorplans), id) == {} ==>
        && failure.None?
        && locations == old(locations) - {id}
        && floorplans == FloorPlansWithout(old(floorplans), id)
    {
      if LocationProtectors(assignments, floorplans, id) != {} {
        return Some(ProtectedError);
      }
      locations := locations - {id};
      floorplans := FloorPlansWithout(floorplans, id);
      failure := None;
    }

    /** `floorplan.delete()`: refused while an assignment references it. */
    method DeleteFloorPlan(id: FloorPlanId) returns (failure: Option<Error>)
      requires Valid() && id in floorplans
      modifies this
      ensures Valid()
      ensures devices == old(devices) && locations == old(locations) && assignments == old(assignments)
      ensures nextLocationId == old(nextLocationId) && nextFloorPlanId == old(nextFloorPlanId)
      ensures (exists d :: d in old(assignments) && old(assignments)[d].floorplan == Some(id)) ==>
        failure == Some(ProtectedError) && floorplans == old(floorplans)
      ensures (forall d :: d in old(assignments) ==> old(assignments)[d].floorplan != Some(id)) ==>
        failure.None? && floorplans == old(floorplans) - {id}
    {
      if exists d :: d in assignments && assignments[d].floorplan == Some(id) {
        return Some(ProtectedError);
      }
      floorplans := floorplans - {id};
      failure := None;
    }

    /**
      `DeviceLocation.delete()`: the assignment row goes first; a mobile
      assignment then deletes its Location as well (raising AttributeError
      when it has none, ProtectedError when the Location is still in use).
      Other types leave their Location and FloorPlan in place.
     */
    method DeleteDeviceLocation(device: DeviceId) returns (failure: Option<Error>)
      requires Valid() && device in assignments
      modifies this
      ensures Valid()
      ensures assignments == old(assignments) - {device}
      ensures devices == old(devices)
      ensures var dl := old(assignments)[device];
        && (dl.locationType != Mobile ==>
              failure.None? && locations == old(locations) && floorplans == old(floorplans))
        && (dl.locationType == Mobile && dl.location.None? ==>
              failure == Some(AttributeError("delete")) && locations == old(locations) && floorplans == old(floorplans))
        && (dl.locationType == Mobile && dl.location.Some? ==>
              var rest := old(assignments) - {device};
              if LocationProtectors(rest, old(floorplans), dl.location.value) != {} then
                failure == Some(ProtectedError) && locations == old(locations) && floorplans == old(floorplans)
              else
                && failure.None?
                && locations == old(locations) - {dl.location.value}
                && floorplans == FloorPlansWithout(old(floorplans), dl.location.value))
    {
      var dl := assignments[device];
      var deleteLocation := false;
      var location: Option<LocationId> := None;
      if dl.locationType == Mobile {
        deleteLocation := true;
        location := dl.location;
      }
      assignments := assignments - {device};
      failure := None;
      if deleteLocation {
        if location.None? {
          failure := Some(AttributeError("delete"));
        } else {
          failure := DeleteLocation(location.value);
        }
      }
    }
  }
}
