/** The buildings list (frontend/src/BuildingsPage.js): the search box and sort select, the
    local list updates after create, update and delete, and the coercion of the form inputs. */
module BuildingsPage {

  import opened Common
  import opened Seqs
  import opened Sorting
  import opened JsString
  import opened JsObject

  /** A building as the list holds it; coordinates as integers. */
  datatype Building = Building(
    id: int,
    name: string,
    address: string,
    totalFloors: int,
    yearBuilt: int,
    latitude: int,
    longitude: int)

  // ---- the search ----

  /** The test of the search filter, against the lower-cased term. */
  predicate MatchesSearch(b: Building, lowercasedSearch: string)
  {
    Contains(ToLower(b.name), lowercasedSearch) || Contains(ToLower(b.address), lowercasedSearch)
  }

  /** The search step of `handleFilter`: a blank term keeps the copy as it is, any other term
      keeps the buildings whose name or address contains it, ignoring case. The term itself is
      not trimmed. The source tests `searchTerm.trim()`, which is non-empty exactly when the
      term is not blank (`JsString.TrimEmptyIffBlank`); the test is written in that form. */
  function Search(buildings: seq<Building>, searchTerm: string): seq<Building>
  {
    if !IsBlank(searchTerm) then
      var lowercasedSearch := ToLower(searchTerm);
      Filter(buildings, (b: Building) => MatchesSearch(b, lowercasedSearch))
    else buildings
  }

  lemma {:induction false} SearchSpec(buildings: seq<Building>, searchTerm: string)
    ensures IsBlank(searchTerm) ==> Search(buildings, searchTerm) == buildings
    ensures !IsBlank(searchTerm) ==> forall b :: b in Search(buildings, searchTerm) <==>
      b in buildings && MatchesSearch(b, ToLower(searchTerm))
    ensures IsSubsequence(Search(buildings, searchTerm), buildings)
  {
    if IsBlank(searchTerm) {
      FilterKeepsAll(buildings, (b: Building) => true);
      FilterIsSubsequence(buildings, (b: Building) => true);
    } else {
      FilterIsSubsequence(buildings, (b: Building) => MatchesSearch(b, ToLower(searchTerm)));
    }
  }

  /** A non-blank term that occurs in a building's lower-cased name finds that building,
      whatever surrounds it. */
  lemma {:induction false} NameHitIsFound(buildings: seq<Building>, i: int, before: string, after: string, searchTerm: string)
    requires 0 <= i < |buildings| && !IsBlank(searchTerm)
    requires ToLower(buildings[i].name) == before + ToLower(searchTerm) + after
    ensures buildings[i] in Search(buildings, searchTerm)
  {
    ContainsInside(before, ToLower(searchTerm), after);
    SearchSpec(buildings, searchTerm);
  }

  // ---- the name order ----

  /** `a.name.localeCompare(b.name) <= 0`, read as plain lexicographic order on characters. */
  predicate LexLe(a: string, b: string)
  {
    a == [] || (b != [] && (a[0] < b[0] || (a[0] == b[0] && LexLe(a[1..], b[1..]))))
  }

  lemma {:induction false} LexLeTotal(a: string, b: string)
    ensures LexLe(a, b) || LexLe(b, a)
  {
    if a != [] && b != [] && a[0] == b[0] {
      LexLeTotal(a[1..], b[1..]);
    }
  }

  lemma {:induction false} LexLeTransitive(a: string, b: string, c: string)
    requires LexLe(a, b) && LexLe(b, c)
    ensures LexLe(a, c)
  {
    if a != [] && b != [] && c != [] && a[0] == b[0] && b[0] == c[0] {
      LexLeTransitive(a[1..], b[1..], c[1..]);
    }
  }

  lemma NameOrderIsPreorder()
    ensures TotalPreorder((x: Building, y: Building) => LexLe(x.name, y.name))
  {
    forall x: Building, y: Building ensures LexLe(x.name, y.name) || LexLe(y.name, x.name) {
      LexLeTotal(x.name, y.name);
    }
    forall x: Building, y: Building, z: Building | LexLe(x.name, y.name) && LexLe(y.name, z.name)
      ensures LexLe(x.name, z.name)
    {
      LexLeTransitive(x.name, y.name, z.name);
    }
  }

  // ---- the list updates ----

  /** `buildings.map(b => b.id === id ? updated : b)` */
  function ReplaceById(buildings: seq<Building>, id: int, updated: Building): seq<Building>
  {
    MapWhere(buildings, (b: Building) => b.id == id, (b: Building) => updated)
  }

  /** `buildings.filter(b => b.id !== id)` */
  function RemoveById(buildings: seq<Building>, id: int): seq<Building>
  {
    Filter(buildings, (b: Building) => b.id != id)
  }

  /** The update replaces exactly the entries with that id, in place, and keeps the length. */
  lemma ReplaceByIdSpec(buildings: seq<Building>, id: int, updated: Building)
    ensures |ReplaceById(buildings, id, updated)| == |buildings|
    ensures forall i :: 0 <= i < |buildings| ==>
      ReplaceById(buildings, id, updated)[i] == if buildings[i].id == id then updated else buildings[i]
  {
  }

  /** The delete drops every entry with that id and keeps the others in order. */
  lemma {:induction false} RemoveByIdSpec(buildings: seq<Building>, id: int)
    ensures forall b :: b in RemoveById(buildings, id) <==> b in buildings && b.id != id
    ensures IsSubsequence(RemoveById(buildings, id), buildings)
  {
    FilterIsSubsequence(buildings, (b: Building) => b.id != id);
  }

  // ---- the form ----

  /** The form as `resetForm` leaves it. */
  const EmptyForm: Record := map[
    "name" := Str(""), "address" := Str(""), "totalFloors" := Num(1), "yearBuilt" := Num(2000),
    "latitude" := Num(0), "longitude" := Num(0)]

  /** The form `handleEdit` fills from a building. */
  function FormOf(b: Building): Record
  {
    map["name" := Str(b.name), "address" := Str(b.address), "totalFloors" := Num(b.totalFloors),
        "yearBuilt" := Num(b.yearBuilt), "latitude" := Num(b.latitude), "longitude" := Num(b.longitude)]
  }

  /** `x || 0` for a number that parsing may have made NaN. */
  function OrZero(n: Option<int>): int
  {
    if n.Some? then n.value else 0
  }

  /** `handleInputChange`: the floor count and the year through `parseInt`, the coordinates
      through `parseFloat` (a parameter here), anything else stored as typed. */
  function InputChange(form: Record, name: string, value: string, parseFloat: string -> Option<int>): (r: Record)
  {
    if name == "totalFloors" || name == "yearBuilt" then form[name := Num(ParseIntOrZero(value))]
    else if name == "latitude" || name == "longitude" then form[name := Num(OrZero(parseFloat(value)))]
    else form[name := Str(value)]
  }

  /** Each input changes only its own field: integers for the counts (0 when the text does not
      start with a number), the parsed or zero coordinate, and the text verbatim elsewhere. */
  lemma {:induction false} InputChangeSpec(form: Record, name: string, value: string, parseFloat: string -> Option<int>)
    ensures name == "totalFloors" || name == "yearBuilt" ==>
      UpdatedOnly(form, InputChange(form, name, value, parseFloat), name, Num(ParseIntOrZero(value)))
    ensures name in {"latitude", "longitude"} ==>
      UpdatedOnly(form, InputChange(form, name, value, parseFloat), name,
        Num(if parseFloat(value).Some? then parseFloat(value).value else 0))
    ensures name !in {"totalFloors", "yearBuilt", "latitude", "longitude"} ==>
      UpdatedOnly(form, InputChange(form, name, value, parseFloat), name, Str(value))
  {
  }

  /** A number typed into the floors or year box is stored as that number. */
  lemma {:induction false} NumericInputRoundTrip(form: Record, name: string, n: int, parseFloat: string -> Option<int>)
    requires name == "totalFloors" || name == "yearBuilt"
    ensures InputChange(form, name, IntToString(n), parseFloat)[name] == Num(n)
  {
    ParseIntOfIntToString(n);
  }

  /** Only an owner or an administrator sees the create, edit and delete buttons. */
  predicate CanManageBuildings(user: Option<User>)
  {
    HasRole(user, Owner) || HasRole(user, Admin)
  }

  /** The order `handleFilter` sorts by for each `sortOption`: by name, by year (newest or
      oldest first), by number of floors (most first); any other option leaves the order. */
  predicate OrderedFor(s: seq<Building>, sortOption: string)
  {
    && (sortOption == "name" ==> SortedBy(s, (x: Building, y: Building) => LexLe(x.name, y.name)))
    && (sortOption == "yearDesc" ==> SortedBy(s, (x: Building, y: Building) => y.yearBuilt <= x.yearBuilt))
    && (sortOption == "yearAsc" ==> SortedBy(s, (x: Building, y: Building) => x.yearBuilt <= y.yearBuilt))
    && (sortOption == "floorsDesc" ==> SortedBy(s, (x: Building, y: Building) => y.totalFloors <= x.totalFloors))
  }

  /** The sort step of `handleFilter`, on the local copy. */
  method SortBuildings(a: array<Building>, sortOption: string)
    modifies a
    ensures multiset(a[..]) == multiset(old(a[..]))
    ensures OrderedFor(a[..], sortOption)
    ensures sortOption !in {"name", "yearDesc", "yearAsc", "floorsDesc"} ==> a[..] == old(a[..])
  {
    if sortOption == "name" {
      NameOrderIsPreorder();
      InsertionSort(a, (x: Building, y: Building) => LexLe(x.name, y.name));
    } else if sortOption == "yearDesc" {
      InsertionSort(a, (x: Building, y: Building) => y.yearBuilt <= x.yearBuilt);
    } else if sortOption == "yearAsc" {
      InsertionSort(a, (x: Building, y: Building) => x.yearBuilt <= y.yearBuilt);
    } else if sortOption == "floorsDesc" {
      InsertionSort(a, (x: Building, y: Building) => y.totalFloors <= x.totalFloors);
    }
  }

  /** What `handleFilter` shows: the search's result, in the order the sort option asks for,
      and as the search left it for an option it does not know. */
  predicate ShownFor(shown: seq<Building>, buildings: seq<Building>, searchTerm: string, sortOption: string)
  {
    && multiset(shown) == multiset(Search(buildings, searchTerm))
    && OrderedFor(shown, sortOption)
    && (sortOption !in {"name", "yearDesc", "yearAsc", "floorsDesc"} ==> shown == Search(buildings, searchTerm))
  }

  /** The body of `handleFilter` on values: search a copy of the list, then sort the copy in
      place. */
  method FilterBuildings(buildings: seq<Building>, searchTerm: string, sortOption: string)
    returns (shown: seq<Building>)
    ensures ShownFor(shown, buildings, searchTerm, sortOption)
  {
    var filtered := Search(buildings, searchTerm);
    var a := new Building[|filtered|](i requires 0 <= i < |filtered| => filtered[i]);
    assert a[..] == filtered;
    SortBuildings(a, sortOption);
    shown := a[..];
  }

  /** The component's state. */
  class Page {
    var buildings: seq<Building>
    var filteredBuildings: seq<Building>
    var user: Option<User>
    var isCreating: bool
    var isEditing: bool
    var currentBuilding: Option<Building>
    var searchTerm: string
    var sortOption: string
    var formData: Record

    /** The initial `useState` values; the list is sorted by name by default. */
    constructor (user: Option<User>)
      ensures this.user == user && buildings == [] && filteredBuildings == []
      ensures !isCreating && !isEditing && currentBuilding.None?
      ensures searchTerm == "" && sortOption == "name" && formData == EmptyForm
    {
      this.user := user;
      buildings, filteredBuildings := [], [];
      isCreating, isEditing, currentBuilding := false, false, None;
      searchTerm, sortOption := "", "name";
      formData := EmptyForm;
    }

    /** `handleFilter`: search a copy of the list, sort the copy in place, show it;
        `buildings` itself is left as it is. */
    method HandleFilter()
      modifies this`filteredBuildings
      ensures ShownFor(filteredBuildings, buildings, searchTerm, sortOption)
    {
      filteredBuildings := FilterBuildings(buildings, searchTerm, sortOption);
    }

    /** `handleInputChange` */
    method HandleInputChange(name: string, value: string, parseFloat: string -> Option<int>)
      modifies this`formData
      ensures formData == InputChange(old(formData), name, value, parseFloat)
    {
      formData := InputChange(formData, name, value, parseFloat);
    }

    /** `fetchBuildings` on success: both lists take the answer, and the effect on
        `buildings` then runs `handleFilter`. */
    method Loaded(data: seq<Building>)
      modifies this`buildings, this`filteredBuildings
      ensures buildings == data
      ensures ShownFor(filteredBuildings, buildings, searchTerm, sortOption)
    {
      buildings, filteredBuildings := data, data;
      HandleFilter();
    }

    /** The search box's `setSearchTerm`, followed by the effect's `handleFilter`. */
    method SetSearchTerm(term: string)
      modifies this`searchTerm, this`filteredBuildings
      ensures searchTerm == term
      ensures ShownFor(filteredBuildings, buildings, searchTerm, sortOption)
    {
      searchTerm := term;
      HandleFilter();
    }

    /** The sort selector's `setSortOption`, followed by the effect's `handleFilter`. */
    method SetSortOption(option: string)
      modifies this`sortOption, this`filteredBuildings
      ensures sortOption == option
      ensures ShownFor(filteredBuildings, buildings, searchTerm, sortOption)
    {
      sortOption := option;
      HandleFilter();
    }

    /** `handleCreateSubmit` once the server has answered with the stored building: it is
        appended at the end, the form closes and is cleared, and the effect on `buildings`
        shows the list filtered again. */
    method CreateSucceeded(created: Building)
      modifies this`buildings, this`isCreating, this`formData, this`filteredBuildings
      ensures buildings == old(buildings) + [created]
      ensures !isCreating && formData == EmptyForm
      ensures ShownFor(filteredBuildings, buildings, searchTerm, sortOption)
    {
      buildings := buildings + [created];
      isCreating := false;
      formData := EmptyForm;
      HandleFilter();
    }

    /** `handleUpdateSubmit` once the server has answered: the entries with the edited id are
        replaced, the edit form closes and the list is filtered again. Without a current
        building the request cannot be built (`currentBuilding.id` throws, and the catch only
        alerts), so nothing changes. */
    method UpdateSucceeded(updated: Building)
      modifies this`buildings, this`isEditing, this`currentBuilding, this`formData, this`filteredBuildings
      ensures old(currentBuilding).Some? ==>
        && buildings == ReplaceById(old(buildings), old(currentBuilding).value.id, updated)
        && !isEditing && currentBuilding.None? && formData == EmptyForm
        && ShownFor(filteredBuildings, buildings, searchTerm, sortOption)
      ensures old(currentBuilding).None? ==>
        buildings == old(buildings) && isEditing == old(isEditing) && formData == old(formData)
        && currentBuilding == old(currentBuilding) && filteredBuildings == old(filteredBuildings)
    {
      if currentBuilding.Some? {
        buildings := ReplaceById(buildings, currentBuilding.value.id, updated);
        isEditing, currentBuilding := false, None;
        formData := EmptyForm;
        HandleFilter();
      }
    }

    /** `handleDelete`: only after the user confirms and the server accepts; the list is then
        filtered again. */
    method Delete(buildingId: int, confirmed: bool, deleteSucceeded: bool)
      modifies this`buildings, this`filteredBuildings
      ensures confirmed && deleteSucceeded ==>
        && buildings == RemoveById(old(buildings), buildingId)
        && ShownFor(filteredBuildings, buildings, searchTerm, sortOption)
      ensures !(confirmed && deleteSucceeded) ==>
        buildings == old(buildings) && filteredBuildings == old(filteredBuildings)
    {
      if confirmed && deleteSucceeded {
        buildings := RemoveById(buildings, buildingId);
        HandleFilter();
      }
    }

    /** `handleEdit`: the form takes the building's fields and switches to editing. */
    method HandleEdit(b: Building)
      modifies this`currentBuilding, this`formData, this`isEditing, this`isCreating
      ensures currentBuilding == Some(b) && formData == FormOf(b)
      ensures isEditing && !isCreating
    {
      currentBuilding := Some(b);
      formData := FormOf(b);
      isEditing, isCreating := true, false;
    }

    /** `handleCancel` */
    method HandleCancel()
      modifies this`isCreating, this`isEditing, this`currentBuilding, this`formData
      ensures !isCreating && !isEditing && currentBuilding.None? && formData == EmptyForm
    {
      isCreating, isEditing, currentBuilding := false, false, None;
      formData := EmptyForm;
    }
  }
}
