/**
 * The overlay registry of the championship map: the markers placed on the map and the
 * clubs whose coordinates could not be plotted, both tagged with the championship that
 * produced them. This module holds the data model, the specification of each registry
 * operation as a function on registry values, and the properties of those functions.
 */
module Registry {
  import opened Wrappers
  import opened Seqs

  /** A championship identifier, as carried by a checkbox's `data-champ` attribute. */
  type ChampId = string

  /** A club as fetched from the federation API; a coordinate is `None` when missing or null. */
  datatype Club = Club(name: string, latitude: Option<real>, longitude: Option<real>)

  /** The championship a club is shown for: the toggled identifier and the competition name. */
  datatype Championship = Championship(id: ChampId, name: string)

  /** A placed marker, reduced to its owner and its rendered (possibly nudged) position. */
  datatype Marker = Marker(champId: ChampId, lat: real, lng: real)

  /** A club that could not be plotted, with the championship it was requested for. */
  datatype ErrorRecord = ErrorRecord(club: Club, championnat: Championship)

  /** One engagement of a pool, reduced to the competition's name. */
  datatype Engagement = Engagement(competitionName: string)

  /** The value of the two registry sequences at one moment. */
  datatype Overlays = Overlays(markers: seq<Marker>, errors: seq<ErrorRecord>)

  /** The longitude offset that fans out a club landing on an occupied position. */
  const Nudge: real := 0.003

  /** The registry before any championship has been toggled on. */
  const Empty: Overlays := Overlays([], [])

  /** A coordinate passes the JavaScript truthiness test: present and not zero. */
  predicate Truthy(c: Option<real>) {
    c.Some? && c.value != 0.0
  }

  /** A club gets a marker only when both of its coordinates are truthy. */
  predicate HasCoordinates(club: Club) {
    Truthy(club.latitude) && Truthy(club.longitude)
  }

  predicate At(m: Marker, lat: real, lng: real) {
    m.lat == lat && m.lng == lng
  }

  /** Some placed marker is rendered exactly at (lat, lng). */
  predicate Occupied(ms: seq<Marker>, lat: real, lng: real) {
    exists i :: 0 <= i < |ms| && At(ms[i], lat, lng)
  }

  function OwnedBy(id: ChampId): Marker -> bool {
    (m: Marker) => m.champId == id
  }

  function NotOwnedBy(id: ChampId): Marker -> bool {
    (m: Marker) => m.champId != id
  }

  function ErrorNotOwnedBy(id: ChampId): ErrorRecord -> bool {
    (e: ErrorRecord) => e.championnat.id != id
  }

  /** The registry after inserting `club` for championship `champ`. */
  function Insert(r: Overlays, club: Club, champ: Championship): (r': Overlays)
    ensures r.markers <= r'.markers && r.errors <= r'.errors
    ensures |r'.markers| + |r'.errors| == |r.markers| + |r.errors| + 1
    ensures HasCoordinates(club) <==> |r'.markers| == |r.markers| + 1
  {
    if !HasCoordinates(club) then
      Overlays(r.markers, r.errors + [ErrorRecord(club, champ)])
    else
      var lat, lng := club.latitude.value, club.longitude.value;
      var placed := if Occupied(r.markers, lat, lng) then lng + Nudge else lng;
      Overlays(r.markers + [Marker(champ.id, lat, placed)], r.errors)
  }

  /** The markers the removal of championship `id` takes off the map, in registry order. */
  function Removed(ms: seq<Marker>, id: ChampId): (gone: seq<Marker>)
    ensures forall m :: m in gone ==> m in ms && m.champId == id
  {
    Filter(ms, OwnedBy(id))
  }

  /** The registry after championship `id` has been unchecked. */
  function Remove(r: Overlays, id: ChampId): (r': Overlays)
    ensures forall m :: m in r'.markers ==> m in r.markers && m.champId != id
    ensures forall e :: e in r'.errors ==> e in r.errors && e.championnat.id != id
  {
    Overlays(Filter(r.markers, NotOwnedBy(id)), Filter(r.errors, ErrorNotOwnedBy(id)))
  }

  /** One iteration of the batch loop: a null result is skipped, a club is inserted. */
  function Step(r: Overlays, champId: ChampId, result: Option<Club>, engagement: Engagement): (r': Overlays)
    ensures r.markers <= r'.markers && r.errors <= r'.errors
    ensures |r'.markers| + |r'.errors| == |r.markers| + |r.errors| + (if result.Some? then 1 else 0)
  {
    match result
    case None => r
    case Some(club) => Insert(r, club, Championship(champId, engagement.competitionName))
  }

  /** The registry after the batch loop has processed `results` in index order. */
  function Batch(r: Overlays, champId: ChampId, flat: seq<Engagement>, results: seq<Option<Club>>): (b: Overlays)
    requires |results| <= |flat|
    ensures r.markers <= b.markers && r.errors <= b.errors
    decreases |results|
  {
    if results == [] then r
    else
      var n := |results| - 1;
      Step(Batch(r, champId, flat, results[..n]), champId, results[n], flat[n])
  }

  /** The error records a batch produces on its own: one per non-null result without coordinates. */
  function FailedRecords(champId: ChampId, flat: seq<Engagement>, results: seq<Option<Club>>): seq<ErrorRecord>
    requires |results| <= |flat|
    decreases |results|
  {
    if results == [] then []
    else
      var n := |results| - 1;
      var last := match results[n]
        case Some(club) =>
          if HasCoordinates(club) then [] else [ErrorRecord(club, Championship(champId, flat[n].competitionName))]
        case None => [];
      FailedRecords(champId, flat, results[..n]) + last
  }

  /** The number of non-null results. */
  function CountSome(results: seq<Option<Club>>): nat {
    if results == [] then 0 else (if results[0].Some? then 1 else 0) + CountSome(results[1..])
  }

  /** The search `markers.find` performs: the first placed marker at (lat, lng), by index. */
  method FindExisting(ms: seq<Marker>, lat: real, lng: real) returns (found: Option<nat>)
    ensures found.Some? <==> Occupied(ms, lat, lng)
    ensures found.Some? ==> found.value < |ms| && At(ms[found.value], lat, lng)
    ensures found.Some? ==> forall j :: 0 <= j < found.value ==> !At(ms[j], lat, lng)
  {
    var i := 0;
    while i < |ms|
      invariant 0 <= i <= |ms|
      invariant forall j :: 0 <= j < i ==> !At(ms[j], lat, lng)
    {
      if At(ms[i], lat, lng) {
        return Some(i);
      }
      i := i + 1;
    }
    return None;
  }

  // ---------------------------------------------------------------- insertion

  /** A club without truthy coordinates adds exactly one error record at the end and no marker. */
  lemma InsertInvalid(r: Overlays, club: Club, champ: Championship)
    requires !HasCoordinates(club)
    ensures Insert(r, club, champ).markers == r.markers
    ensures |Insert(r, club, champ).errors| == |r.errors| + 1
    ensures Insert(r, club, champ).errors[..|r.errors|] == r.errors
    ensures Insert(r, club, champ).errors[|r.errors|] == ErrorRecord(club, champ)
  {
  }

  /**
   * A club with coordinates adds exactly one marker at the end, owned by the championship,
   * at the club's latitude; its longitude is the club's own when the position is free and is
   * nudged once by 0.003 when it is taken. Earlier markers and the error list are untouched.
   */
  lemma InsertValid(r: Overlays, club: Club, champ: Championship)
    requires HasCoordinates(club)
    ensures var r', lat, lng := Insert(r, club, champ), club.latitude.value, club.longitude.value;
      && r'.errors == r.errors
      && |r'.markers| == |r.markers| + 1
      && r'.markers[..|r.markers|] == r.markers
      && r'.markers[|r.markers|].champId == champ.id
      && r'.markers[|r.markers|].lat == lat
      && (!Occupied(r.markers, lat, lng) ==> r'.markers[|r.markers|].lng == lng)
      && (Occupied(r.markers, lat, lng) ==> r'.markers[|r.markers|].lng == lng + Nudge)
  {
    var r' := Insert(r, club, champ);
    assert r'.markers[..|r.markers|] == r.markers;
  }

  /** Two clubs at one free position, inserted one after the other: the first keeps it, the second moves east by 0.003. */
  lemma SamePositionTwice(r: Overlays, a: Club, b: Club, champA: Championship, champB: Championship)
    requires HasCoordinates(a) && HasCoordinates(b)
    requires a.latitude == b.latitude && a.longitude == b.longitude
    requires !Occupied(r.markers, a.latitude.value, a.longitude.value)
    ensures var r' := Insert(Insert(r, a, champA), b, champB);
      && r'.markers == r.markers + [Marker(champA.id, a.latitude.value, a.longitude.value),
                                    Marker(champB.id, b.latitude.value, b.longitude.value + Nudge)]
  {
    var r1 := Insert(r, a, champA);
    assert At(r1.markers[|r.markers|], b.latitude.value, b.longitude.value);
  }

  /**
   * The nudged position is not checked again: of three clubs at one free position, the second
   * and the third both land 0.003 east of it, so three clubs sharing a position fan out to two.
   */
  lemma ThirdClubNotFannedOut(r: Overlays, a: Club, b: Club, c: Club, ca: Championship, cb: Championship, cc: Championship)
    requires HasCoordinates(a)
    requires a.latitude == b.latitude == c.latitude && a.longitude == b.longitude == c.longitude
    requires !Occupied(r.markers, a.latitude.value, a.longitude.value)
    ensures var ms, n, lat, lng := Insert(Insert(Insert(r, a, ca), b, cb), c, cc).markers, |r.markers|,
                                   a.latitude.value, a.longitude.value;
      && |ms| == n + 3
      && ms[..n] == r.markers
      && ms[n] == Marker(ca.id, lat, lng)
      && ms[n + 1] == Marker(cb.id, lat, lng + Nudge)
      && ms[n + 2] == Marker(cc.id, lat, lng + Nudge)
  {
    var lat, lng := a.latitude.value, a.longitude.value;
    var r1 := Insert(r, a, ca);
    assert At(r1.markers[|r.markers|], lat, lng);
    var r2 := Insert(r1, b, cb);
    assert At(r2.markers[|r.markers|], lat, lng);
  }

  // ------------------------------------------------------------------ removal

  /**
   * Partition law: after removing championship `id` no marker and no error record is owned by
   * it, and every entry owned by another championship is still there, as often as before, in
   * its original relative order.
   */
  lemma RemovePartition(r: Overlays, id: ChampId)
    ensures forall m :: m in Remove(r, id).markers ==> m.champId != id
    ensures forall e :: e in Remove(r, id).errors ==> e.championnat.id != id
    ensures forall m: Marker :: m.champId != id ==> multiset(Remove(r, id).markers)[m] == multiset(r.markers)[m]
    ensures forall e: ErrorRecord :: e.championnat.id != id ==> multiset(Remove(r, id).errors)[e] == multiset(r.errors)[e]
    ensures IsSubseq(Remove(r, id).markers, r.markers)
    ensures IsSubseq(Remove(r, id).errors, r.errors)
  {
    FilterSatisfies(r.markers, NotOwnedBy(id));
    FilterSatisfies(r.errors, ErrorNotOwnedBy(id));
    forall m: Marker | m.champId != id
      ensures multiset(Remove(r, id).markers)[m] == multiset(r.markers)[m]
    {
      FilterCount(r.markers, NotOwnedBy(id), m);
    }
    forall e: ErrorRecord | e.championnat.id != id
      ensures multiset(Remove(r, id).errors)[e] == multiset(r.errors)[e]
    {
      FilterCount(r.errors, ErrorNotOwnedBy(id), e);
    }
    FilterIsSubseq(r.markers, NotOwnedBy(id));
    FilterIsSubseq(r.errors, ErrorNotOwnedBy(id));
  }

  /**
   * The markers handed to the map for deletion are exactly the ones owned by `id`, in registry
   * order; together with the markers kept they make up the registry before the removal.
   */
  lemma RemovedExactly(ms: seq<Marker>, id: ChampId)
    ensures forall m :: m in Removed(ms, id) <==> m in ms && m.champId == id
    ensures IsSubseq(Removed(ms, id), ms)
    ensures multiset(Removed(ms, id)) + multiset(Remove(Overlays(ms, []), id).markers) == multiset(ms)
  {
    forall m ensures m in Removed(ms, id) <==> m in ms && m.champId == id {
      FilterMembership(ms, OwnedBy(id), m);
    }
    FilterIsSubseq(ms, OwnedBy(id));
    FilterPartition(ms, OwnedBy(id), NotOwnedBy(id));
  }

  /** Unchecking the same championship twice leaves the registry as the first time did. */
  lemma RemoveIdempotent(r: Overlays, id: ChampId)
    ensures Remove(Remove(r, id), id) == Remove(r, id)
  {
    FilterIdempotent(r.markers, NotOwnedBy(id));
    FilterIdempotent(r.errors, ErrorNotOwnedBy(id));
  }

  /** Removing a championship that owns nothing changes nothing. */
  lemma RemoveAbsent(r: Overlays, id: ChampId)
    requires forall i :: 0 <= i < |r.markers| ==> r.markers[i].champId != id
    requires forall i :: 0 <= i < |r.errors| ==> r.errors[i].championnat.id != id
    ensures Remove(r, id) == r
  {
    FilterAll(r.markers, NotOwnedBy(id));
    FilterAll(r.errors, ErrorNotOwnedBy(id));
  }

  // -------------------------------------------------------------------- batch

  /**
   * A batch for `champId` only appends: the registry before it is a prefix of both sequences
   * after it, every appended entry is owned by `champId`, and exactly one entry is appended per
   * non-null result.
   */
  lemma {:induction false} BatchAppendsOwned(r: Overlays, champId: ChampId, flat: seq<Engagement>, results: seq<Option<Club>>)
    requires |results| <= |flat|
    ensures var b := Batch(r, champId, flat, results);
      && r.markers <= b.markers
      && r.errors <= b.errors
      && (forall i :: |r.markers| <= i < |b.markers| ==> b.markers[i].champId == champId)
      && (forall i :: |r.errors| <= i < |b.errors| ==> b.errors[i].championnat.id == champId)
      && |b.markers| + |b.errors| == |r.markers| + |r.errors| + CountSome(results)
    decreases |results|
  {
    if results != [] {
      var n := |results| - 1;
      BatchAppendsOwned(r, champId, flat, results[..n]);
      CountSomeSnoc(results[..n], results[n]);
      assert results[..n] + [results[n]] == results;
    }
  }

  lemma {:induction false} CountSomeSnoc(results: seq<Option<Club>>, x: Option<Club>)
    ensures CountSome(results + [x]) == CountSome(results) + (if x.Some? then 1 else 0)
  {
    if results != [] {
      CountSomeSnoc(results[1..], x);
      assert (results + [x])[1..] == results[1..] + [x];
    }
  }

  /**
   * The error records a batch appends do not depend on the markers: they are the clubs of the
   * non-null results without coordinates, in index order, each paired with the competition
   * name of the engagement at the same index and with the toggled identifier.
   */
  lemma {:induction false} BatchErrors(r: Overlays, champId: ChampId, flat: seq<Engagement>, results: seq<Option<Club>>)
    requires |results| <= |flat|
    ensures Batch(r, champId, flat, results).errors == r.errors + FailedRecords(champId, flat, results)
    decreases |results|
  {
    if results != [] {
      var n := |results| - 1;
      BatchErrors(r, champId, flat, results[..n]);
    }
  }

  /** Every record of `FailedRecords` comes from a non-null result at some index i, named after engagement i. */
  lemma {:induction false} FailedRecordsSource(champId: ChampId, flat: seq<Engagement>, results: seq<Option<Club>>, k: nat)
    requires |results| <= |flat|
    requires k < |FailedRecords(champId, flat, results)|
    ensures var rec := FailedRecords(champId, flat, results)[k];
      exists i :: 0 <= i < |results| && results[i] == Some(rec.club) && !HasCoordinates(rec.club)
        && rec.championnat == Championship(champId, flat[i].competitionName)
    decreases |results|
  {
    var n := |results| - 1;
    var prefix := FailedRecords(champId, flat, results[..n]);
    if k < |prefix| {
      FailedRecordsSource(champId, flat, results[..n], k);
      var i :| 0 <= i < n && results[..n][i] == Some(prefix[k].club)
        && !HasCoordinates(prefix[k].club)
        && prefix[k].championnat == Championship(champId, flat[i].competitionName);
      assert results[i] == results[..n][i];
    } else {
      assert results[n] == Some(FailedRecords(champId, flat, results)[k].club);
    }
  }

  /**
   * Toggling a championship on and then off restores the registry, provided it owned nothing
   * before: every insertion of the batch is tagged with the toggled identifier and the removal
   * filters on that same identifier.
   */
  lemma BatchThenRemove(r: Overlays, champId: ChampId, flat: seq<Engagement>, results: seq<Option<Club>>)
    requires |results| <= |flat|
    requires forall i :: 0 <= i < |r.markers| ==> r.markers[i].champId != champId
    requires forall i :: 0 <= i < |r.errors| ==> r.errors[i].championnat.id != champId
    ensures Remove(Batch(r, champId, flat, results), champId) == r
  {
    var b := Batch(r, champId, flat, results);
    BatchAppendsOwned(r, champId, flat, results);
    var newMs, newEs := b.markers[|r.markers|..], b.errors[|r.errors|..];
    assert b.markers == r.markers + newMs;
    assert b.errors == r.errors + newEs;
    KeepPrefix(r.markers, newMs, NotOwnedBy(champId));
    KeepPrefix(r.errors, newEs, ErrorNotOwnedBy(champId));
  }
}
