/** The new-space form (frontend/src/CreateSpacePage.js): its defaults, the field and amenity
    handlers, the payload sent to the server, and who may use the form. */
module CreateSpacePage {

  import opened Common
  import opened Seqs
  import opened JsObject
  import BuildingsPage

  /** The initial `formData`. */
  const DefaultForm: Record := map[
    "name" := Str(""), "description" := Str(""), "area" := Num(0), "pricePerMonth" := Num(0),
    "address" := Str(""), "latitude" := Num(0), "longitude" := Num(0),
    "spaceType" := Str("OFFICE"), "available" := Bool(true),
    "floors" := Num(1), "numberOfRooms" := Num(1), "hasReception" := Bool(false),
    "shopWindowSize" := Num(0), "hasCustomerEntrance" := Bool(true), "maxOccupancy" := Num(0),
    "ceilingHeight" := Num(0), "hasLoadingDock" := Bool(false), "securityLevel" := Str("MEDIUM"),
    "buildingId" := Str(""), "amenities" := List([])]

  /** A new space starts available, as an office, with no amenities and no building chosen. */
  lemma DefaultFormSpec()
    ensures DefaultForm["available"] == Bool(true)
    ensures DefaultForm["spaceType"] == Str("OFFICE")
    ensures DefaultForm["amenities"] == List([])
    ensures DefaultForm["buildingId"] == Str("")
  {
  }

  /** After the buildings are loaded, the first one is preselected when there is one. */
  function FormAfterBuildings(form: Record, buildingIds: seq<int>): (r: Record)
    ensures buildingIds != [] ==> UpdatedOnly(form, r, "buildingId", Num(buildingIds[0]))
    ensures buildingIds == [] ==> r == form
  {
    if |buildingIds| > 0 then form["buildingId" := Num(buildingIds[0])] else form
  }

  /** The kinds of input `handleChange` distinguishes. */
  datatype InputType = Checkbox | Number | OtherInput

  /** `handleChange`: a checkbox stores `checked`, a number input the parsed value or 0, any
      other input the text as typed. `parseFloat` is a parameter here. */
  function HandleChange(form: Record, name: string, value: string, inputType: InputType, checked: bool,
                        parseFloat: string -> Option<int>): Record
  {
    match inputType
    case Checkbox => form[name := Bool(checked)]
    case Number => form[name := Num(if parseFloat(value).Some? then parseFloat(value).value else 0)]
    case OtherInput => form[name := Str(value)]
  }

  /** Each kind of input changes its own field only. */
  lemma HandleChangeSpec(form: Record, name: string, value: string, checked: bool, parseFloat: string -> Option<int>)
    ensures UpdatedOnly(form, HandleChange(form, name, value, Checkbox, checked, parseFloat), name, Bool(checked))
    ensures parseFloat(value).Some? ==>
      UpdatedOnly(form, HandleChange(form, name, value, Number, checked, parseFloat), name, Num(parseFloat(value).value))
    ensures parseFloat(value).None? ==>
      UpdatedOnly(form, HandleChange(form, name, value, Number, checked, parseFloat), name, Num(0))
    ensures UpdatedOnly(form, HandleChange(form, name, value, OtherInput, checked, parseFloat), name, Str(value))
  {
  }

  /** `handleAmenityChange`: ticking appends the amenity, unticking removes every copy of it.
      None when `amenities` is not a list (the source then fails). */
  function AmenityChange(form: Record, value: string, checked: bool): Option<Record>
  {
    var a := Get(form, "amenities");
    if !a.List? then None
    else if checked then Some(form["amenities" := List(a.items + [value])])
    else Some(form["amenities" := List(Filter(a.items, (x: string) => x != value))])
  }

  /** What ticking and unticking do to the amenity list, and that nothing else changes. */
  lemma {:induction false} AmenityChangeSpec(form: Record, value: string, checked: bool)
    requires Get(form, "amenities").List?
    ensures var items := Get(form, "amenities").items;
      var r := AmenityChange(form, value, checked);
      && r.Some?
      && r.value.Keys == form.Keys + {"amenities"}
      && (forall k :: k in form && k != "amenities" ==> r.value[k] == form[k])
      && r.value["amenities"].List?
      && (checked ==> r.value["amenities"].items == items + [value])
      && (!checked ==> value !in r.value["amenities"].items)
      && (!checked ==> forall x :: x in items && x != value ==> x in r.value["amenities"].items)
      && (!checked ==> IsSubsequence(r.value["amenities"].items, items))
  {
    FilterIsSubsequence(Get(form, "amenities").items, (x: string) => x != value);
  }

  /** Ticking an amenity and then unticking it leaves no copy of it, and keeps the others. */
  lemma {:induction false} TickThenUntick(form: Record, value: string)
    requires Get(form, "amenities").List?
    ensures var once := AmenityChange(form, value, true).value;
      var twice := AmenityChange(once, value, false).value;
      twice["amenities"].items == Filter(Get(form, "amenities").items, (x: string) => x != value)
  {
    var items := Get(form, "amenities").items;
    var p := (x: string) => x != value;
    FilterAppendOne(items, value, p);
  }

  lemma {:induction false} FilterAppendOne(s: seq<string>, v: string, p: string -> bool)
    requires !p(v)
    ensures Filter(s + [v], p) == Filter(s, p)
  {
    if s == [] {
      assert Filter([v], p) == Filter([v][1..], p);
    } else {
      assert (s + [v])[1..] == s[1..] + [v];
      FilterAppendOne(s[1..], v, p);
    }
  }

  /** `handleSubmit`'s payload: the form spread, with `owner` and `building` objects added and
      the `buildingId` key then deleted from the fresh object. */
  method ShapePayload(form: Record, userId: int) returns (spaceData: Record)
    ensures "buildingId" !in spaceData
    ensures "owner" in spaceData && spaceData["owner"] == Obj(map["id" := Num(userId)])
    ensures "building" in spaceData && spaceData["building"] == Obj(map["id" := Get(form, "buildingId")])
    ensures spaceData.Keys == form.Keys - {"buildingId"} + {"owner", "building"}
    ensures forall k :: k in form && k !in {"buildingId", "owner", "building"} ==> spaceData[k] == form[k]
  {
    spaceData := form;
    spaceData := spaceData["owner" := Obj(map["id" := Num(userId)])];
    spaceData := spaceData["building" := Obj(map["id" := Get(form, "buildingId")])];
    spaceData := spaceData - {"buildingId"};
  }

  /** The guard of the effect and of the page: only an owner or an administrator. */
  predicate CanUseForm(user: Option<User>)
  {
    user.Some? && (user.value.role == Owner || user.value.role == Admin)
  }

  /** The users who may create a space are those who may manage buildings; tenants may not. */
  lemma CanUseFormSpec(user: Option<User>)
    ensures CanUseForm(user) <==> BuildingsPage.CanManageBuildings(user)
    ensures HasRole(user, Tenant) ==> !CanUseForm(user)
  {
  }
}
