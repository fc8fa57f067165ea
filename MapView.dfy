/** The listing map (components/MapView.tsx): a linear projection of latitude and longitude onto
    percentages of a fixed box over India, and one marker per listing with its selection and
    hover flags. Numbers are reals; the `${top}%` formatting is not modelled. */
module MapView {
  import opened Wrappers
  import opened Types

  /** `MAP_BOUNDS`. */
  const MinLat: real := 8.0
  const MaxLat: real := 37.0
  const MinLng: real := 68.0
  const MaxLng: real := 97.0

  /** A position on the map, in percent of its height (`top`) and width (`left`). */
  datatype Point = Point(top: real, left: real)

  /** `projectCoordinates`: latitude runs bottom to top, longitude left to right. */
  function ProjectCoordinates(lat: real, lng: real): (pt: Point)
    ensures (100.0 - pt.top) * (MaxLat - MinLat) == (lat - MinLat) * 100.0
    ensures pt.left * (MaxLng - MinLng) == (lng - MinLng) * 100.0
  {
    Point(100.0 - ((lat - MinLat) / (MaxLat - MinLat)) * 100.0,
          ((lng - MinLng) / (MaxLng - MinLng)) * 100.0)
  }

  /** The box's south-west corner is the bottom-left of the map and its north-east corner the
      top-right. */
  lemma Corners()
    ensures ProjectCoordinates(MinLat, MinLng) == Point(100.0, 0.0)
    ensures ProjectCoordinates(MaxLat, MaxLng) == Point(0.0, 100.0)
  {
  }

  /** `top` depends on the latitude alone and `left` on the longitude alone. */
  lemma Separable(lat: real, lng: real, lat': real, lng': real)
    ensures ProjectCoordinates(lat, lng).top == ProjectCoordinates(lat, lng').top
    ensures ProjectCoordinates(lat, lng).left == ProjectCoordinates(lat', lng).left
  {
  }

  /** Further north is strictly higher on the map; further east is strictly further right. */
  lemma Monotone(lat: real, lng: real, lat': real, lng': real)
    ensures lat < lat' ==> ProjectCoordinates(lat', lng).top < ProjectCoordinates(lat, lng).top
    ensures lng < lng' ==> ProjectCoordinates(lat, lng).left < ProjectCoordinates(lat, lng').left
  {
  }

  /** Nothing is clamped: a point lands inside the map exactly when it lies inside the box. */
  lemma InsideIff(lat: real, lng: real)
    ensures MinLat <= lat <= MaxLat <==> 0.0 <= ProjectCoordinates(lat, lng).top <= 100.0
    ensures MinLng <= lng <= MaxLng <==> 0.0 <= ProjectCoordinates(lat, lng).left <= 100.0
  {
  }

  /** Where a listing's pin and info window go. */
  function Place(p: Property): (pt: Point) {
    ProjectCoordinates(p.coordinates.lat, p.coordinates.lng)
  }

  /** One pin: its listing, position and the two flags that choose its colour and scale.
      `hoverStyle` is `isHovered && !isSelected`. */
  datatype Marker = Marker(propertyId: int, at: Point, isSelected: bool, isHovered: bool, hoverStyle: bool)

  /** `selectedProperty?.id === property.id` and `hoveredPropertyId === property.id`; an absent
      selection or hover matches nothing. */
  function MarkerFor(p: Property, hovered: Option<int>, selected: Option<Property>): (m: Marker)
    ensures m.propertyId == p.id && m.at == Place(p)
    ensures m.isSelected <==> selected.Some? && selected.value.id == p.id
    ensures m.isHovered <==> hovered == Some(p.id)
    ensures m.hoverStyle <==> m.isHovered && !m.isSelected
  {
    var isSelected := selected.Some? && selected.value.id == p.id;
    var isHovered := hovered.Some? && hovered.value == p.id;
    Marker(p.id, Place(p), isSelected, isHovered, isHovered && !isSelected)
  }

  /** `properties.map(...)`: one marker per listing, in listing order. */
  function Markers(props: seq<Property>, hovered: Option<int>, selected: Option<Property>): (ms: seq<Marker>)
    ensures |ms| == |props|
    ensures forall i :: 0 <= i < |props| ==> ms[i] == MarkerFor(props[i], hovered, selected)
  {
    seq(|props|, i requires 0 <= i < |props| => MarkerFor(props[i], hovered, selected))
  }

  /** `{selectedProperty && <InfoWindow/>}`: the info window's position, when there is one. */
  function InfoWindowAt(selected: Option<Property>): (w: Option<Point>)
    ensures w.Some? <==> selected.Some?
  {
    if selected.Some? then Some(Place(selected.value)) else None
  }

  /** No pin is drawn both selected and hover-styled, and with unique ids at most one pin is
      selected and at most one is hovered. */
  lemma {:induction false} MarkerFlags(props: seq<Property>, hovered: Option<int>, selected: Option<Property>)
    requires UniqueIds(props)
    ensures forall i :: 0 <= i < |props| ==>
      !(Markers(props, hovered, selected)[i].isSelected && Markers(props, hovered, selected)[i].hoverStyle)
    ensures forall i, j :: 0 <= i < |props| && 0 <= j < |props| ==>
      (Markers(props, hovered, selected)[i].isSelected && Markers(props, hovered, selected)[j].isSelected ==> i == j)
    ensures forall i, j :: 0 <= i < |props| && 0 <= j < |props| ==>
      (Markers(props, hovered, selected)[i].isHovered && Markers(props, hovered, selected)[j].isHovered ==> i == j)
  {
    var ms := Markers(props, hovered, selected);
    forall i, j | 0 <= i < |props| && 0 <= j < |props| && ms[i].isSelected && ms[j].isSelected
      ensures i == j
    {
      assert props[i].id == selected.value.id == props[j].id;
    }
    forall i, j | 0 <= i < |props| && 0 <= j < |props| && ms[i].isHovered && ms[j].isHovered
      ensures i == j
    {
      assert props[i].id == hovered.value == props[j].id;
    }
  }

  /** The info window of the selected listing sits exactly on that listing's selected pin. */
  lemma InfoWindowOnPin(props: seq<Property>, hovered: Option<int>, selected: Option<Property>, i: int)
    requires 0 <= i < |props| && selected == Some(props[i])
    ensures Markers(props, hovered, selected)[i].isSelected
    ensures InfoWindowAt(selected) == Some(Markers(props, hovered, selected)[i].at)
  {
  }
}
