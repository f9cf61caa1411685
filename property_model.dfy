/** The `Property` schema: field constraints, defaults, and look-up by id with the owner check. */
module PropertyModel {
  import opened Common

  /** The `type` enum: daire (flat), villa, dükkan (shop), ofis (office), arsa (land). */
  datatype PropertyType = Daire | Villa | Dukkan | Ofis | Arsa

  /** The `status` enum. */
  datatype Occupancy = Vacant | Occupied

  datatype Property = Property(
    id: nat,
    landlordId: nat,
    name: string,
    address: string,
    kind: PropertyType,
    rent: real,
    aidat: real,
    dueDay: int,
    status: Occupancy,
    tenantName: Option<string>,
    tenantPhone: Option<string>)
  {
    /** What a stored property satisfies: the schema's required, `min` and `max` constraints. */
    predicate Valid()
    {
      name != "" && address != "" && rent >= 0.0 && aidat >= 0.0 && 1 <= dueDay <= 31
    }
  }

  function ParsePropertyType(s: string): (t: Option<PropertyType>)
    ensures t.Some? <==> s in {"daire", "villa", "d\U{00FC}kkan", "ofis", "arsa"}
  {
    if s == "daire" then Some(Daire)
    else if s == "villa" then Some(Villa)
    else if s == "d\U{00FC}kkan" then Some(Dukkan)
    else if s == "ofis" then Some(Ofis)
    else if s == "arsa" then Some(Arsa)
    else None
  }

  function ParseOccupancy(s: string): (o: Option<Occupancy>)
    ensures o.Some? <==> s in {"vacant", "occupied"}
  {
    if s == "vacant" then Some(Vacant) else if s == "occupied" then Some(Occupied) else None
  }

  /** The fields handed to `new Property({...})`; `None` is an absent (undefined) field. */
  datatype PropertyInput = PropertyInput(
    landlordId: Option<nat>,
    name: Option<string>,
    address: Option<string>,
    kind: Option<string>,
    rent: Option<real>,
    aidat: Option<real>,
    dueDay: Option<int>,
    status: Option<string>,
    tenantName: Option<string>,
    tenantPhone: Option<string>)

  /** The paths whose validators reject `input` when the document is saved. */
  function PropertyFailures(input: PropertyInput): set<string>
  {
    (if input.landlordId.None? then {"landlordId"} else {})
    + (if !RequiredText(input.name) then {"name"} else {})
    + (if !RequiredText(input.address) then {"address"} else {})
    + (if input.kind.Some? && ParsePropertyType(input.kind.value).None? then {"type"} else {})
    + (if input.rent.None? || input.rent.value < 0.0 then {"rent"} else {})
    + (if input.aidat.Some? && input.aidat.value < 0.0 then {"aidat"} else {})
    + (if input.dueDay.None? || !(1 <= input.dueDay.value <= 31) then {"dueDay"} else {})
    + (if input.status.Some? && ParseOccupancy(input.status.value).None? then {"status"} else {})
  }

  function TrimOpt(s: Option<string>): Option<string>
  {
    if s.Some? then Some(Trim(s.value)) else None
  }

  /**
   * `new Property(input).save()`: the setters trim the strings, absent paths take their
   * defaults (type daire, aidat 0, status vacant), and the validators accept or reject.
   */
  function BuildProperty(id: nat, input: PropertyInput): (r: Validation<Property>)
    ensures r.Accepted? <==>
      && input.landlordId.Some? && RequiredText(input.name) && RequiredText(input.address)
      && (input.kind.Some? ==> input.kind.value in {"daire", "villa", "d\U{00FC}kkan", "ofis", "arsa"})
      && input.rent.Some? && input.rent.value >= 0.0
      && (input.aidat.Some? ==> input.aidat.value >= 0.0)
      && input.dueDay.Some? && 1 <= input.dueDay.value <= 31
      && (input.status.Some? ==> input.status.value in {"vacant", "occupied"})
    ensures r.Accepted? ==> r.value.Valid() && r.value.id == id
    ensures r.Accepted? ==> r.value.rent == input.rent.value && r.value.dueDay == input.dueDay.value
    ensures r.Accepted? ==>
      && r.value.landlordId == input.landlordId.value
      && r.value.name == Trim(input.name.value) && r.value.address == Trim(input.address.value)
      && r.value.tenantName == (if input.tenantName.Some? then Some(Trim(input.tenantName.value)) else None)
      && r.value.tenantPhone == (if input.tenantPhone.Some? then Some(Trim(input.tenantPhone.value)) else None)
    ensures r.Accepted? && input.kind.Some? ==> r.value.kind == ParsePropertyType(input.kind.value).value
    ensures r.Accepted? && input.aidat.Some? ==> r.value.aidat == input.aidat.value
    ensures r.Accepted? && input.status.Some? ==> r.value.status == ParseOccupancy(input.status.value).value
    ensures r.Accepted? && input.kind.None? ==> r.value.kind == Daire
    ensures r.Accepted? && input.aidat.None? ==> r.value.aidat == 0.0
    ensures r.Accepted? && input.status.None? ==> r.value.status == Vacant
    ensures r.Rejected? ==> r.paths != {}
  {
    var failures := PropertyFailures(input);
    if failures != {} then Rejected(failures)
    else
      Accepted(Property(
        id, input.landlordId.value, Trim(input.name.value), Trim(input.address.value),
        if input.kind.Some? then ParsePropertyType(input.kind.value).value else Daire,
        input.rent.value,
        if input.aidat.Some? then input.aidat.value else 0.0,
        input.dueDay.value,
        if input.status.Some? then ParseOccupancy(input.status.value).value else Vacant,
        TrimOpt(input.tenantName), TrimOpt(input.tenantPhone)))
  }

  /** `Property.findById(id)`: the first stored property with that id. */
  function FindProperty(props: seq<Property>, id: nat): (r: Option<Property>)
    ensures r.Some? ==> r.value in props && r.value.id == id
    ensures r.None? ==> forall p :: p in props ==> p.id != id
  {
    if props == [] then None
    else if props[0].id == id then Some(props[0])
    else FindProperty(props[1..], id)
  }

  /** The ownership check every landlord route makes: the property exists and belongs to `user`. */
  predicate Owns(props: seq<Property>, id: nat, user: nat)
  {
    var p := FindProperty(props, id);
    p.Some? && p.value.landlordId == user
  }
}
