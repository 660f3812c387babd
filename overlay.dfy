/**
 * The page's process-wide registry as an object: the `markers` and `errors` sequences and the
 * operations of the page that update them in place.
 */
module Overlay {
  import opened Wrappers
  import opened Seqs
  import opened Registry
  import opened ErrorList

  class OverlayRegistry {
    var markers: seq<Marker>
    var errors: seq<ErrorRecord>

    /** The current value of both sequences. */
    function Snapshot(): Overlays
      reads this
    {
      Overlays(markers, errors)
    }

    constructor ()
      ensures Snapshot() == Empty
    {
      markers := [];
      errors := [];
    }

    /**
     * `createClubMarker`: record a club without coordinates as an error; otherwise place its
     * marker, moved east by 0.003 when a placed marker already sits at its exact position.
     */
    method CreateClubMarker(club: Club, championnat: Championship)
      modifies this
      ensures Snapshot() == Insert(old(Snapshot()), club, championnat)
      ensures !HasCoordinates(club) ==> markers == old(markers) && errors == old(errors) + [ErrorRecord(club, championnat)]
      ensures HasCoordinates(club) ==> errors == old(errors) && old(markers) <= markers && |markers| == |old(markers)| + 1
    {
      if !Truthy(club.latitude) || !Truthy(club.longitude) {
        errors := errors + [ErrorRecord(club, championnat)];
        return;
      }
      var lat, lng := club.latitude.value, club.longitude.value;
      var existing := FindExisting(markers, lat, lng);
      if existing.Some? {
        lng := lng + Nudge;
      }
      markers := markers + [Marker(championnat.id, lat, lng)];
    }

    /**
     * The loop of `addMarkersForChampionship` over the already-fetched clubs: null results are
     * skipped, and club i is inserted with the competition name of flattened engagement i.
     * Returns the error lines rendered afterwards.
     */
    method AddMarkersForChampionship(champId: ChampId, engagements: seq<seq<Engagement>>, clubsData: seq<Option<Club>>)
      returns (lines: seq<string>)
      requires |clubsData| == |Concat(engagements)|
      modifies this
      ensures Snapshot() == Batch(old(Snapshot()), champId, Concat(engagements), clubsData)
      ensures lines == Render(errors)
    {
      var flat := Concat(engagements);
      var i := 0;
      while i < |clubsData|
        invariant 0 <= i <= |clubsData|
        invariant Snapshot() == Batch(old(Snapshot()), champId, flat, clubsData[..i])
      {
        assert clubsData[..i + 1][..i] == clubsData[..i];
        if clubsData[i].Some? {
          CreateClubMarker(clubsData[i].value, Championship(champId, flat[i].competitionName));
        }
        i := i + 1;
      }
      assert clubsData[..i] == clubsData;
      lines := Render(errors);
    }

    /**
     * The unchecked branch of the change handler: returns the markers taken off the map, then
     * keeps only the markers and error records owned by another championship.
     */
    method RemoveChampionship(champId: ChampId) returns (removed: seq<Marker>, lines: seq<string>)
      modifies this
      ensures removed == Removed(old(markers), champId)
      ensures Snapshot() == Remove(old(Snapshot()), champId)
      ensures lines == Render(errors)
    {
      removed := Filter(markers, OwnedBy(champId));
      markers := Filter(markers, NotOwnedBy(champId));
      errors := Filter(errors, ErrorNotOwnedBy(champId));
      lines := Render(errors);
    }

    /**
     * The checkbox change handler with the championship's fetches already resolved: a checked
     * box adds the batch, an unchecked one removes the championship.
     */
    method OnChange(champId: ChampId, checked: bool, engagements: seq<seq<Engagement>>, clubsData: seq<Option<Club>>)
      returns (removed: seq<Marker>, lines: seq<string>)
      requires |clubsData| == |Concat(engagements)|
      modifies this
      ensures checked ==> removed == [] && Snapshot() == Batch(old(Snapshot()), champId, Concat(engagements), clubsData)
      ensures !checked ==> removed == Removed(old(markers), champId) && Snapshot() == Remove(old(Snapshot()), champId)
      ensures lines == Render(errors)
    {
      if checked {
        removed := [];
        lines := AddMarkersForChampionship(champId, engagements, clubsData);
      } else {
        removed, lines := RemoveChampionship(champId);
      }
    }
  }
}
