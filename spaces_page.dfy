/** The spaces list (frontend/src/SpacesPage.js): the role-restricted view, the filter panel
    (price and area bounds, locations, types, availability), its sort options, the reset
    button and the list of building names offered as locations. */
module SpacesPage {

  import opened Common
  import opened Seqs
  import opened Sorting

  /** The filter panel. A bound is None while its input is empty; `locations` and `spaceTypes`
      are the ticked boxes. */
  datatype Criteria = Criteria(
    minPrice: Option<int>,
    maxPrice: Option<int>,
    minArea: Option<int>,
    maxArea: Option<int>,
    locations: seq<string>,
    spaceTypes: seq<string>,
    onlyAvailable: bool,
    sortOption: string)

  /** The panel as `handleReset` leaves it: only a tenant keeps "only available" ticked. */
  function ResetCriteria(user: Option<User>): Criteria
  {
    Criteria(None, None, None, None, [], [], HasRole(user, Tenant), "")
  }

  /** `(!lo || x >= lo) && (!hi || x <= hi)`: an unset bound imposes nothing. */
  predicate WithinBounds(x: int, lo: Option<int>, hi: Option<int>)
  {
    (lo.None? || x >= lo.value) && (hi.None? || x <= hi.value)
  }

  /** The test of the second `filter` call in `handleFilter`. */
  predicate Matches(s: Space, c: Criteria)
  {
    && WithinBounds(s.pricePerMonth, c.minPrice, c.maxPrice)
    && WithinBounds(s.area, c.minArea, c.maxArea)
    && (|c.locations| == 0 || (s.buildingName != "" && s.buildingName in c.locations))
    && (|c.spaceTypes| == 0 || (s.spaceType != "" && s.spaceType in c.spaceTypes))
    && (!c.onlyAvailable || s.available)
  }

  /** `spaces.filter(space => space.owner && space.owner.id === userId)` */
  function OwnSpaces(spaces: seq<Space>, userId: int): seq<Space>
  {
    Filter(spaces, (s: Space) => OwnedBy(s, userId))
  }

  /** `spaces.filter(space => space.available)` */
  function AvailableSpaces(spaces: seq<Space>): seq<Space>
  {
    Filter(spaces, (s: Space) => s.available)
  }

  /** The first step of `handleFilter`: an owner sees only their own spaces. */
  function RoleView(spaces: seq<Space>, user: Option<User>): seq<Space>
  {
    if HasRole(user, Owner) then OwnSpaces(spaces, user.value.id) else spaces
  }

  function FilterSpaces(spaces: seq<Space>, user: Option<User>, crit: Criteria): seq<Space>
  {
    Filter(RoleView(spaces, user), (s: Space) => Matches(s, crit))
  }

  /** The list shown after loading and after a reset: an owner's own spaces, the available
      spaces for a tenant, everything for anyone else. */
  function DefaultView(spaces: seq<Space>, user: Option<User>): seq<Space>
  {
    if HasRole(user, Owner) then OwnSpaces(spaces, user.value.id)
    else if HasRole(user, Tenant) then AvailableSpaces(spaces)
    else spaces
  }

  function BuildingNames(spaces: seq<Space>): (r: seq<string>)
    ensures |r| == |spaces|
    ensures forall i :: 0 <= i < |spaces| ==> r[i] == spaces[i].buildingName
  {
    if spaces == [] then [] else [spaces[0].buildingName] + BuildingNames(spaces[1..])
  }

  /** `[...new Set(spaces.map(s => s.building?.name).filter(Boolean))]` */
  function UniqueLocations(spaces: seq<Space>): seq<string>
  {
    Distinct(Filter(BuildingNames(spaces), (n: string) => n != ""))
  }

  // ---- properties ----

  /** An owner's filtered list holds only spaces they own. */
  lemma OwnerSeesOwnSpaces(spaces: seq<Space>, user: Option<User>, crit: Criteria)
    requires HasRole(user, Owner)
    ensures forall s :: s in FilterSpaces(spaces, user, crit) ==> OwnedBy(s, user.value.id)
  {
  }

  /** Each criterion holds of every space the filter keeps. */
  lemma FilteredSpacesMeetCriteria(spaces: seq<Space>, user: Option<User>, crit: Criteria, s: Space)
    requires s in FilterSpaces(spaces, user, crit)
    ensures s in spaces
    ensures crit.minPrice.Some? ==> s.pricePerMonth >= crit.minPrice.value
    ensures crit.maxPrice.Some? ==> s.pricePerMonth <= crit.maxPrice.value
    ensures crit.minArea.Some? ==> s.area >= crit.minArea.value
    ensures crit.maxArea.Some? ==> s.area <= crit.maxArea.value
    ensures crit.onlyAvailable ==> s.available
    ensures crit.locations != [] ==> s.buildingName != "" && s.buildingName in crit.locations
    ensures crit.spaceTypes != [] ==> s.spaceType != "" && s.spaceType in crit.spaceTypes
  {
  }

  /** The filtered list is the loaded list with some spaces left out and the others in order,
      and it keeps every space the role may see that meets the criteria. */
  lemma {:induction false} FilterSpacesIsSubsequence(spaces: seq<Space>, user: Option<User>, crit: Criteria)
    ensures IsSubsequence(FilterSpaces(spaces, user, crit), spaces)
    ensures forall s :: s in spaces && Matches(s, crit) && (HasRole(user, Owner) ==> OwnedBy(s, user.value.id)) ==>
      s in FilterSpaces(spaces, user, crit)
  {
    var view := RoleView(spaces, user);
    FilterIsSubsequence(view, (s: Space) => Matches(s, crit));
    if HasRole(user, Owner) {
      FilterIsSubsequence(spaces, (s: Space) => OwnedBy(s, user.value.id));
      SubsequenceTransitive(FilterSpaces(spaces, user, crit), view, spaces);
    }
  }

  /** The reset list, role by role. */
  lemma DefaultViewByRole(spaces: seq<Space>, user: Option<User>)
    ensures HasRole(user, Tenant) ==>
      forall s :: s in DefaultView(spaces, user) <==> s in spaces && s.available
    ensures HasRole(user, Owner) ==>
      forall s :: s in DefaultView(spaces, user) <==> s in spaces && OwnedBy(s, user.value.id)
    ensures !HasRole(user, Tenant) && !HasRole(user, Owner) ==> DefaultView(spaces, user) == spaces
    ensures IsSubsequence(DefaultView(spaces, user), spaces)
  {
    if HasRole(user, Owner) {
      FilterIsSubsequence(spaces, (s: Space) => OwnedBy(s, user.value.id));
    } else if HasRole(user, Tenant) {
      FilterIsSubsequence(spaces, (s: Space) => s.available);
    } else {
      FilterKeepsAll(spaces, (s: Space) => true);
      FilterIsSubsequence(spaces, (s: Space) => true);
    }
  }

  /** Applying the filter right after a reset shows exactly the list the reset shows. */
  lemma {:induction false} ResetAgreesWithFilter(spaces: seq<Space>, user: Option<User>)
    ensures FilterSpaces(spaces, user, ResetCriteria(user)) == DefaultView(spaces, user)
  {
    var crit := ResetCriteria(user);
    var m := (s: Space) => Matches(s, crit);
    if HasRole(user, Owner) {
      FilterKeepsAll(OwnSpaces(spaces, user.value.id), m);
    } else if HasRole(user, Tenant) {
      FilterCongruent(spaces, m, (s: Space) => s.available);
    } else {
      FilterKeepsAll(spaces, m);
    }
  }

  /** The location choices: no name twice, and exactly the non-empty building names present. */
  lemma UniqueLocationsSpec(spaces: seq<Space>)
    ensures NoDuplicates(UniqueLocations(spaces))
    ensures forall n :: n in UniqueLocations(spaces) <==>
      n != "" && exists i :: 0 <= i < |spaces| && spaces[i].buildingName == n
  {
    var names := BuildingNames(spaces);
    forall n ensures n in UniqueLocations(spaces) <==>
      n != "" && exists i :: 0 <= i < |spaces| && spaces[i].buildingName == n
    {
      if n != "" && exists i :: 0 <= i < |spaces| && spaces[i].buildingName == n {
        var i :| 0 <= i < |spaces| && spaces[i].buildingName == n;
        assert names[i] == n;
      }
    }
  }

  /** The component's state. */
  class Page {
    var spaces: seq<Space>
    var filteredSpaces: seq<Space>
    var user: Option<User>
    var minPrice: Option<int>
    var maxPrice: Option<int>
    var minArea: Option<int>
    var maxArea: Option<int>
    var locations: seq<string>
    var spaceTypes: seq<string>
    var onlyAvailable: bool
    var sortOption: string

    function CurrentCriteria(): Criteria
      reads this
    {
      Criteria(minPrice, maxPrice, minArea, maxArea, locations, spaceTypes, onlyAvailable, sortOption)
    }

    /** The initial `useState` values: "only available" starts ticked for every role. */
    constructor (user: Option<User>)
      ensures this.user == user && spaces == [] && filteredSpaces == []
      ensures CurrentCriteria() == Criteria(None, None, None, None, [], [], true, "")
    {
      this.user := user;
      spaces, filteredSpaces := [], [];
      minPrice, maxPrice, minArea, maxArea := None, None, None, None;
      locations, spaceTypes := [], [];
      onlyAvailable := true;
      sortOption := "";
    }

    /** `fetchSpaces` on success: the whole answer is kept, the role's default view is shown. */
    method Loaded(data: seq<Space>)
      modifies this`spaces, this`filteredSpaces
      ensures spaces == data && filteredSpaces == DefaultView(data, user)
    {
      spaces := data;
      if HasRole(user, Owner) {
        filteredSpaces := OwnSpaces(data, user.value.id);
      } else {
        filteredSpaces := if HasRole(user, Tenant) then AvailableSpaces(data) else data;
      }
    }

    /** `handleFilter`: restrict to the role's spaces, apply the criteria, sort in place. */
    method HandleFilter()
      modifies this`filteredSpaces
      ensures multiset(filteredSpaces) == multiset(FilterSpaces(spaces, user, CurrentCriteria()))
      ensures sortOption == "priceAsc" ==> forall i, j :: 0 <= i < j < |filteredSpaces| ==>
        filteredSpaces[i].pricePerMonth <= filteredSpaces[j].pricePerMonth
      ensures sortOption == "priceDesc" ==> forall i, j :: 0 <= i < j < |filteredSpaces| ==>
        filteredSpaces[i].pricePerMonth >= filteredSpaces[j].pricePerMonth
      ensures sortOption == "areaAsc" ==> forall i, j :: 0 <= i < j < |filteredSpaces| ==>
        filteredSpaces[i].area <= filteredSpaces[j].area
      ensures sortOption == "areaDesc" ==> forall i, j :: 0 <= i < j < |filteredSpaces| ==>
        filteredSpaces[i].area >= filteredSpaces[j].area
      ensures sortOption !in {"priceAsc", "priceDesc", "areaAsc", "areaDesc"} ==>
        filteredSpaces == FilterSpaces(spaces, user, CurrentCriteria())
    {
      var filtered := FilterSpaces(spaces, user, CurrentCriteria());
      var a := new Space[|filtered|](i requires 0 <= i < |filtered| => filtered[i]);
      assert a[..] == filtered;
      if sortOption == "priceAsc" {
        InsertionSort(a, (x: Space, y: Space) => x.pricePerMonth <= y.pricePerMonth);
      } else if sortOption == "priceDesc" {
        InsertionSort(a, (x: Space, y: Space) => y.pricePerMonth <= x.pricePerMonth);
      } else if sortOption == "areaAsc" {
        InsertionSort(a, (x: Space, y: Space) => x.area <= y.area);
      } else if sortOption == "areaDesc" {
        InsertionSort(a, (x: Space, y: Space) => y.area <= x.area);
      }
      filteredSpaces := a[..];
    }

    /** `handleReset`: the panel is cleared (only a tenant keeps "only available") and the
        role's default view is shown again. */
    method HandleReset()
      modifies this`minPrice, this`maxPrice, this`minArea, this`maxArea, this`locations
      modifies this`spaceTypes, this`onlyAvailable, this`sortOption, this`filteredSpaces
      ensures CurrentCriteria() == ResetCriteria(user)
      ensures onlyAvailable == HasRole(user, Tenant)
      ensures filteredSpaces == DefaultView(spaces, user)
    {
      minPrice, maxPrice, minArea, maxArea := None, None, None, None;
      locations, spaceTypes := [], [];
      onlyAvailable := HasRole(user, Tenant);
      sortOption := "";
      var shown;
      if HasRole(user, Owner) {
        shown := OwnSpaces(spaces, user.value.id);
      } else if HasRole(user, Tenant) {
        shown := AvailableSpaces(spaces);
      } else {
        shown := spaces;
      }
      assert shown == DefaultView(spaces, user);
      filteredSpaces := shown;
    }
  }
}
