/** The map page (frontend/src/MapPage.js): the type and availability filters, which spaces get
    a marker, and the icon a marker uses. */
module MapPage {

  import opened Common
  import opened Seqs

  /** The effect on `[spaces, filter, availableOnly]`: a type filter unless "ALL" is chosen, then
      the availability filter when its box is ticked. */
  function ShownSpaces(spaces: seq<Space>, filter: string, availableOnly: bool): seq<Space>
  {
    var byType := if filter != "ALL" then Filter(spaces, (s: Space) => s.spaceType == filter) else spaces;
    if availableOnly then Filter(byType, (s: Space) => s.available) else byType
  }

  /** `!space.latitude || !space.longitude` fails: both coordinates present and non-zero. */
  predicate HasCoordinates(s: Space)
  {
    s.latitude.Some? && s.latitude.value != 0 && s.longitude.Some? && s.longitude.value != 0
  }

  datatype Icon = OfficeIcon | RetailIcon | WarehouseIcon | DefaultIcon

  /** `getIcon` */
  function GetIcon(spaceType: string): Icon
  {
    match spaceType
    case "OFFICE" => OfficeIcon
    case "RETAIL" => RetailIcon
    case "WAREHOUSE" => WarehouseIcon
    case _ => DefaultIcon
  }

  datatype Marker = Marker(spaceId: int, latitude: int, longitude: int, icon: Icon)

  /** `filteredSpaces.map(...)`: one marker per space with coordinates, in list order. */
  function Markers(shown: seq<Space>): (r: seq<Marker>)
    ensures |r| <= |shown|
  {
    if shown == [] then []
    else
      var s := shown[0];
      var rest := Markers(shown[1..]);
      if HasCoordinates(s) then
        [Marker(s.id, s.latitude.value, s.longitude.value, GetIcon(s.spaceType))] + rest
      else rest
  }

  // ---- properties ----

  /** Every shown space passes both filters, nothing passing them is left out, and the shown
      list keeps the loaded order. */
  lemma {:induction false} ShownSpacesSpec(spaces: seq<Space>, filter: string, availableOnly: bool)
    ensures forall s :: s in ShownSpaces(spaces, filter, availableOnly) <==>
      s in spaces && (filter == "ALL" || s.spaceType == filter) && (!availableOnly || s.available)
    ensures IsSubsequence(ShownSpaces(spaces, filter, availableOnly), spaces)
    ensures filter == "ALL" && !availableOnly ==> ShownSpaces(spaces, filter, availableOnly) == spaces
  {
    var byType := if filter != "ALL" then Filter(spaces, (s: Space) => s.spaceType == filter) else spaces;
    if filter != "ALL" {
      FilterIsSubsequence(spaces, (s: Space) => s.spaceType == filter);
    } else {
      FilterKeepsAll(spaces, (s: Space) => true);
      FilterIsSubsequence(spaces, (s: Space) => true);
    }
    if availableOnly {
      FilterIsSubsequence(byType, (s: Space) => s.available);
      SubsequenceTransitive(ShownSpaces(spaces, filter, availableOnly), byType, spaces);
    }
  }

  /** A marker stands for a listed space with both coordinates non-zero and carries its
      position and the icon of its type; every such space gets one. */
  lemma {:induction false} MarkersSpec(shown: seq<Space>)
    ensures forall m :: m in Markers(shown) ==>
      (exists s :: s in shown && HasCoordinates(s) &&
         m == Marker(s.id, s.latitude.value, s.longitude.value, GetIcon(s.spaceType)))
    ensures forall s :: s in shown && HasCoordinates(s) ==>
      Marker(s.id, s.latitude.value, s.longitude.value, GetIcon(s.spaceType)) in Markers(shown)
  {
    if shown != [] {
      MarkersSpec(shown[1..]);
      assert forall s :: s in shown ==> s == shown[0] || s in shown[1..];
    }
  }

  /** A space at latitude or longitude 0 gets no marker. */
  lemma ZeroCoordinateHasNoMarker(s: Space)
    requires s.latitude == Some(0) || s.longitude == Some(0)
    ensures Markers([s]) == []
  {
  }

  /** The three known types have three different icons; anything else gets the default. */
  lemma GetIconSpec(t: string)
    ensures GetIcon("OFFICE") != GetIcon("RETAIL") && GetIcon("RETAIL") != GetIcon("WAREHOUSE")
    ensures GetIcon("OFFICE") != GetIcon("WAREHOUSE")
    ensures GetIcon(t) == DefaultIcon <==> t != "OFFICE" && t != "RETAIL" && t != "WAREHOUSE"
  {
  }
}
