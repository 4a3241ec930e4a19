/**
 * The map view (src/components/Map/Map.tsx): Google Places results become `Place`
 * records for the markers, and a marker click merges the marker's place with its
 * detail response before it becomes the selected place. The Places service itself
 * is not modelled; its callbacks arrive here as a status and a result.
 */
module MapView {
  import opened Wrappers
  import Text

  datatype LatLng = LatLng(lat: real, lng: real)

  /** `google.maps.places.PlacesServiceStatus`. */
  datatype Status =
    | Ok | ZeroResults | NotFound | InvalidRequest | OverQueryLimit | RequestDenied | UnknownError

  /**
   * `PlaceResult.opening_hours`: `isOpenNow` is what its `isOpen()` returns at the
   * time of the call (it depends on the clock, so here it is an input).
   */
  datatype OpeningHours = OpeningHours(isOpenNow: Option<bool>, weekdayText: Option<seq<string>>)

  datatype Geometry = Geometry(location: Option<LatLng>)

  /** The fields of `google.maps.places.PlaceResult` the view reads; each may be missing. */
  datatype PlaceResult = PlaceResult(
    name: Option<string>,
    rating: Option<real>,
    userRatingsTotal: Option<int>,
    types: Option<seq<string>>,
    vicinity: Option<string>,
    openingHours: Option<OpeningHours>,
    geometry: Option<Geometry>,
    placeId: Option<string>,
    website: Option<string>)

  /** The view's `Place` record; `openTime` and `website` are optional there. */
  datatype Place = Place(
    name: string,
    rating: real,
    totalRatings: int,
    placeType: string,
    address: string,
    isOpen: bool,
    openTime: Option<string>,
    website: Option<string>,
    location: LatLng,
    placeId: string)

  // ---------------------------------------------------------------------------
  // Nearby search results to places
  // ---------------------------------------------------------------------------

  /** `types?.[0]`: absent when there is no list or the list is empty. */
  function FirstType(types: Option<seq<string>>): (t: Option<string>)
    ensures t.Some? <==> types.Some? && |types.value| > 0
    ensures t.Some? ==> t.value == types.value[0]
  {
    if types.Some? && |types.value| > 0 then Some(types.value[0]) else None
  }

  /** `opening_hours?.isOpen() || false`. */
  function IsOpenNow(hours: Option<OpeningHours>): bool {
    hours.Some? && hours.value.isOpenNow == Some(true)
  }

  /** One nearby-search result as a marker's place (the body of `results.map`). */
  function ToPlace(r: PlaceResult): (p: Place)
    ensures p.openTime == None && p.website == None
  {
    Place(
      name := r.name.GetOr(""),
      rating := r.rating.GetOr(0.0),
      totalRatings := r.userRatingsTotal.GetOr(0),
      placeType := FirstType(r.types).GetOr(""),
      address := r.vicinity.GetOr(""),
      isOpen := IsOpenNow(r.openingHours),
      openTime := None,
      website := None,
      location := if r.geometry.Some? then r.geometry.value.location.GetOr(LatLng(0.0, 0.0))
                  else LatLng(0.0, 0.0),
      placeId := r.placeId.GetOr(""))
  }

  /** Every result field the view reads is carried over, and a missing one takes its default. */
  lemma ToPlaceDefaults(r: PlaceResult)
    ensures var p := ToPlace(r);
      (p.name == if r.name.Some? then r.name.value else "")
      && (p.address == if r.vicinity.Some? then r.vicinity.value else "")
      && (p.placeId == if r.placeId.Some? then r.placeId.value else "")
      && (p.rating == if r.rating.Some? then r.rating.value else 0.0)
      && (p.totalRatings == if r.userRatingsTotal.Some? then r.userRatingsTotal.value else 0)
      && (p.placeType == if r.types.Some? && |r.types.value| > 0 then r.types.value[0] else "")
      && (p.isOpen <==> r.openingHours.Some? && r.openingHours.value.isOpenNow == Some(true))
      && (p.location == if r.geometry.Some? && r.geometry.value.location.Some?
                        then r.geometry.value.location.value else LatLng(0.0, 0.0))
  {
  }

  /** `results.map(...)`: one place per result, in the same order. */
  function ToPlaces(results: seq<PlaceResult>): (ps: seq<Place>)
    ensures |ps| == |results|
    ensures forall i :: 0 <= i < |results| ==> ps[i] == ToPlace(results[i])
  {
    seq(|results|, i requires 0 <= i < |results| => ToPlace(results[i]))
  }

  /** Mapping respects concatenation, so the order of the results is the order of the places. */
  lemma ToPlacesAppend(a: seq<PlaceResult>, b: seq<PlaceResult>)
    ensures ToPlaces(a + b) == ToPlaces(a) + ToPlaces(b)
  {
  }

  /** The `nearbySearch` callback: places are replaced only by an OK response with results. */
  function ApplySearch(places: seq<Place>, status: Status, results: Option<seq<PlaceResult>>)
    : (ps: seq<Place>)
    ensures status == Ok && results.Some? ==> ps == ToPlaces(results.value)
    ensures !(status == Ok && results.Some?) ==> ps == places
  {
    if status == Ok && results.Some? then ToPlaces(results.value) else places
  }

  // ---------------------------------------------------------------------------
  // Detail merge on marker click
  // ---------------------------------------------------------------------------

  /** `t.replace(/_/g, ' ').toLowerCase()`, ASCII letters only. */
  function NormalizeType(t: string): (n: string)
    ensures |n| == |t|
    ensures forall i :: 0 <= i < |n| ==> n[i] != '_' && !Text.IsAsciiUpper(n[i])
  {
    Text.ToLower(Text.ReplaceAll(t, '_', ' '))
  }

  /** Characters other than `_` and upper-case letters are kept; upper-case letters become lower-case. */
  lemma NormalizeTypeAt(t: string, i: nat)
    requires i < |t|
    ensures t[i] == '_' ==> NormalizeType(t)[i] == ' '
    ensures Text.IsAsciiUpper(t[i]) ==> NormalizeType(t)[i] as int == t[i] as int + 32
    ensures t[i] != '_' && !Text.IsAsciiUpper(t[i]) ==> NormalizeType(t)[i] == t[i]
  {
  }

  /** Normalising a normalised type changes nothing. */
  lemma NormalizeTypeIdempotent(t: string)
    ensures NormalizeType(NormalizeType(t)) == NormalizeType(t)
  {
    var n := NormalizeType(t);
    assert forall i :: 0 <= i < |n| ==> NormalizeType(n)[i] == n[i];
  }

  /** `types?.[0]?.replace(...).toLowerCase() || place.type`. */
  function DetailType(fallback: string, types: Option<seq<string>>): (t: string)
    ensures FirstType(types).None? ==> t == fallback
    ensures FirstType(types).Some? && FirstType(types).value == "" ==> t == fallback
    ensures FirstType(types).Some? && FirstType(types).value != "" ==>
      t == NormalizeType(FirstType(types).value)
  {
    match FirstType(types)
    case None => fallback
    case Some(raw) => var n := NormalizeType(raw); if n != "" then n else fallback
  }

  /** `opening_hours?.weekday_text?.[0] || ''`. */
  function OpenTimeOf(hours: Option<OpeningHours>): (s: string)
    ensures hours.Some? && hours.value.weekdayText.Some? && |hours.value.weekdayText.value| > 0 ==>
      s == hours.value.weekdayText.value[0]
    ensures !(hours.Some? && hours.value.weekdayText.Some? && |hours.value.weekdayText.value| > 0) ==>
      s == ""
  {
    if hours.Some? && hours.value.weekdayText.Some? && |hours.value.weekdayText.value| > 0
    then hours.value.weekdayText.value[0] else ""
  }

  /**
   * `{ ...place, website, openTime, type }`: the marker's place with the detail
   * response's website, first weekday line and normalised first type. Every other
   * field is the marker's.
   */
  function Merge(place: Place, detail: PlaceResult): (p: Place)
    ensures p.(website := place.website, openTime := place.openTime, placeType := place.placeType) == place
    ensures p.website == detail.website
    ensures p.openTime == Some(OpenTimeOf(detail.openingHours))
    ensures p.placeType == DetailType(place.placeType, detail.types)
  {
    place.(website := detail.website,
           openTime := Some(OpenTimeOf(detail.openingHours)),
           placeType := DetailType(place.placeType, detail.types))
  }

  /** The merge reads only `website`, `opening_hours.weekday_text` and `types` of the detail response. */
  lemma MergeReadsOnlyDetailFields(place: Place, d1: PlaceResult, d2: PlaceResult)
    requires d1.website == d2.website && d1.types == d2.types
    requires OpenTimeOf(d1.openingHours) == OpenTimeOf(d2.openingHours)
    ensures Merge(place, d1) == Merge(place, d2)
  {
  }

  /** The merged type never holds `_` or an upper-case letter unless it is the marker's own. */
  lemma MergedTypeIsNormalized(place: Place, detail: PlaceResult)
    ensures var t := Merge(place, detail).placeType;
      t == place.placeType ||
      (forall i :: 0 <= i < |t| ==> t[i] != '_' && !Text.IsAsciiUpper(t[i]))
  {
  }

  // ---------------------------------------------------------------------------
  // The selected place
  // ---------------------------------------------------------------------------

  /** One `getDetails` callback: the place whose marker was clicked and what came back. */
  datatype DetailArrival = DetailArrival(place: Place, status: Status, result: Option<PlaceResult>)

  predicate Accepted(a: DetailArrival) {
    a.status == Ok && a.result.Some?
  }

  /** The `getDetails` callback: the selection changes only on an OK response with a result. */
  function ApplyDetails(selected: Option<Place>, a: DetailArrival): (s: Option<Place>)
    ensures Accepted(a) ==> s == Some(Merge(a.place, a.result.value))
    ensures !Accepted(a) ==> s == selected
  {
    if Accepted(a) then Some(Merge(a.place, a.result.value)) else selected
  }

  /** The selection after detail callbacks run in the order given (arrival order). */
  function SelectedAfter(selected: Option<Place>, arrivals: seq<DetailArrival>): Option<Place>
    decreases |arrivals|
  {
    if arrivals == [] then selected
    else ApplyDetails(SelectedAfter(selected, arrivals[..|arrivals| - 1]), arrivals[|arrivals| - 1])
  }

  /** The index of the last accepted callback, if any. */
  function LastAccepted(arrivals: seq<DetailArrival>): (k: Option<nat>)
    ensures k.Some? ==>
      && k.value < |arrivals| && Accepted(arrivals[k.value])
      && forall j :: k.value < j < |arrivals| ==> !Accepted(arrivals[j])
    ensures k.None? ==> forall j :: 0 <= j < |arrivals| ==> !Accepted(arrivals[j])
    decreases |arrivals|
  {
    if arrivals == [] then None
    else if Accepted(arrivals[|arrivals| - 1]) then Some(|arrivals| - 1)
    else LastAccepted(arrivals[..|arrivals| - 1])
  }

  /**
   * There is no guard against stale responses: the selection is the merge of the
   * callback that ARRIVED last among the accepted ones, whichever marker was
   * clicked last; with none accepted it is left as it was.
   */
  lemma {:induction false} LastArrivalWins(selected: Option<Place>, arrivals: seq<DetailArrival>)
    ensures SelectedAfter(selected, arrivals) ==
      match LastAccepted(arrivals)
      case None => selected
      case Some(k) => Some(Merge(arrivals[k].place, arrivals[k].result.value))
    decreases |arrivals|
  {
    if arrivals != [] {
      LastArrivalWins(selected, arrivals[..|arrivals| - 1]);
    }
  }

  /**
   * Markers for `first` and then `second` are clicked; the response for `second`
   * arrives first and the one for `first` after it. The selected place is then the
   * one for `first`, the older click.
   */
  lemma OlderResponseOverwrites(selected: Option<Place>, first: Place, second: Place,
                                d1: PlaceResult, d2: PlaceResult)
    ensures var s := SelectedAfter(selected,
        [DetailArrival(second, Ok, Some(d2)), DetailArrival(first, Ok, Some(d1))]);
      s == Some(Merge(first, d1)) && s.value.placeId == first.placeId
  {
    var arrivals := [DetailArrival(second, Ok, Some(d2)), DetailArrival(first, Ok, Some(d1))];
    assert arrivals[..1] == [DetailArrival(second, Ok, Some(d2))];
    assert arrivals[..1][..0] == [];
  }

  /** The view's state: the markers' places and the place whose panel is shown. */
  class MapState {
    var places: seq<Place>
    var selected: Option<Place>

    constructor ()
      ensures places == [] && selected == None
    {
      places := [];
      selected := None;
    }

    /** The `nearbySearch` callback, run on every `idle` event of the map. */
    method OnNearbySearch(status: Status, results: Option<seq<PlaceResult>>)
      modifies this
      ensures places == ApplySearch(old(places), status, results)
      ensures selected == old(selected)
    {
      if status == Ok && results.Some? {
        places := ToPlaces(results.value);
      }
    }

    /** The `getDetails` callback of a click on the marker of `place`. */
    method OnDetails(place: Place, status: Status, result: Option<PlaceResult>)
      modifies this
      ensures selected == ApplyDetails(old(selected), DetailArrival(place, status, result))
      ensures places == old(places)
    {
      if status == Ok && result.Some? {
        selected := Some(Merge(place, result.value));
      }
    }

    /** The `placeName` the map passes to the Atlas panel: `selectedPlace?.name || ''`. */
    function AtlasPlaceName(): (n: string)
      reads this
      ensures selected.None? ==> n == ""
      ensures selected.Some? ==> n == selected.value.name
    {
      if selected.Some? then selected.value.name else ""
    }
  }
}
