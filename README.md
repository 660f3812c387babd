# Overlay registry of the championship club map

The page shows football clubs on a map, one layer per championship, switched on and off by
checkboxes. Its only stateful logic is the overlay registry: two page-wide sequences,
`markers` (one entry per placed map marker, tagged with the championship that placed it) and
`errors` (one record per club that could not be plotted, with the championship it was requested
for), and the operations that change them:

- inserting a club (`createClubMarker`): a club whose latitude or longitude is missing, null or
  zero becomes an error record; otherwise a marker is placed, moved east by 0.003 once when an
  already-placed marker sits at exactly the same position;
- the batch loop of a checked box: the already-fetched clubs are walked in index order, null
  results are skipped, club i is inserted with the competition name of flattened engagement i;
- the removal branch of an unchecked box: the championship's markers are taken off the map and
  both sequences keep only entries owned by other championships;
- rendering the error list: one list item per error record, in record order.

Modules:

- `Wrappers` (`wrappers.dfy`): `Option`.
- `Seqs` (`seqs.dfy`): `Filter` and `Concat`, the models of the array methods `filter` and
  `flat`, with membership, counting, order (`IsSubseq`), partition, append and idempotence lemmas.
- `Registry` (`registry.dfy`): the data model (`Club`, `Championship`, `Marker`, `ErrorRecord`,
  `Engagement`, `Overlays`), each registry operation as a function on registry values
  (`Insert`, `Remove`, `Removed`, `Batch`), the marker search `FindExisting`, and the properties.
- `ErrorList` (`errorlist.dfy`): the rendered lines and `ParseLine`, which reads the two names
  back out of a line.
- `Overlay` (`overlay.dfy`): class `OverlayRegistry` with the `markers` and `errors` fields and
  the methods that update them in place, each proved against the `Registry` functions.
- `Scenarios` (`scenarios.dfy`): concrete toggles of championship "101".

Modelling choices:

- A coordinate is an `Option<real>`. It counts as valid when it is `Some(v)` with `v != 0`, which
  is the JavaScript truthiness test at script.js:49.
- The 0.003 nudge and the exact `===` position comparison are taken over exact reals.
- A marker is its owner plus its rendered position. The search compares against the positions
  of placed markers (possibly nudged), not against the clubs' original data.
- The source nudges the fetched club object's own longitude. Nothing reads that object again
  apart from the new marker, so the model keeps the nudged longitude only in the marker.
- The batch takes the fetch results as inputs: engagement lists per pool, flattened by `Concat`,
  and `clubsData`, one result per flattened engagement (`None` for a failed fetch).
- The methods return the error lines the page writes after each change, and the markers that
  are passed to `map.removeLayer`.

## Model

| member | source | states |
|---|---|---|
| Seqs.Filter | script.js:101-102 | the model of `.filter`: the result is no longer than the input and holds only input elements that satisfy the predicate. `FilterMembership`, `FilterCount` and `FilterIsSubseq` give membership in both directions, multiplicity and order |
| Seqs.Concat | script.js:79-84 | the model of `.flat()` on the per-pool engagement lists: its length is the sum of the inner lengths, and it distributes over concatenation (`ConcatAppend`) |
| Seqs.ConcatAt | script.js:84 | the flattened order is pool order and then engagement order: engagement j of pool k sits at index `|Concat(pools[..k])| + j`, which is the index its club result is paired with |
| Registry.Insert | script.js:48-72 | one insertion only appends, to exactly one of the two sequences, and to `markers` exactly when the club has coordinates. `InsertInvalid` and `InsertValid` give the appended entry |
| Registry.Removed | script.js:99 | the markers selected for `removeLayer` are registry markers owned by the id. `RemovedExactly` gives the converse and the order |
| Registry.Remove | script.js:101-102 | every entry kept by the removal was in the registry and is owned by another championship. `RemovePartition` gives the converse, multiplicity and order |
| Registry.Step | script.js:83-85 | one loop iteration only appends: nothing for a null result, exactly one entry for a club |
| Registry.Batch | script.js:82-86 | the batch leaves the old sequences as prefixes. `BatchAppendsOwned`, `BatchErrors` and `BatchThenRemove` give the owners, the counts and the inverse |
| ErrorList.Line | script.js:45 | a line starts with the fixed message and its length is the message plus both names plus the separators. `LineNamesClubAndChampionship` reads both names back |
| Registry.FindExisting | script.js:63 | returns a marker index exactly when some placed marker sits at exactly (lat, lng); the index is the first such marker |
| Registry.InsertInvalid | script.js:49-52 | a club with a missing or zero coordinate appends exactly one `{club, championnat}` record at the end of `errors` and leaves `markers` unchanged |
| Registry.InsertValid | script.js:63-71 | a club with coordinates appends exactly one marker owned by `championnat.id` at the club's latitude, leaving earlier markers and `errors` unchanged. The longitude is the club's own when the position is free and is nudged once by +0.003 when the position is taken |
| Registry.SamePositionTwice | script.js:63-71 | two clubs at one free position inserted in turn: the first keeps it, the second gets longitude + 0.003, and the first is not moved |
| Registry.ThirdClubNotFannedOut | script.js:63-71 | the nudged position is not re-checked: of three clubs at one free position, each with its own championship, the first keeps the position and the second and third are both placed at longitude + 0.003, with earlier markers unchanged |
| Registry.RemovePartition | script.js:101-102 | after removing X, no marker and no error record is owned by X. Every entry owned by another championship is still there with the same multiplicity, in its original relative order |
| Registry.RemovedExactly | script.js:99-100 | the markers passed to `removeLayer` are exactly those owned by X, in registry order. Together with the kept markers they make up the old sequence |
| Registry.RemoveIdempotent | script.js:101-102 | removing the same championship twice leaves both sequences as after the first removal |
| Registry.RemoveAbsent | script.js:101-102 | removing a championship that owns nothing leaves the registry unchanged |
| Registry.BatchAppendsOwned | script.js:82-86 | a batch only appends: the old sequences are prefixes, every appended entry is owned by the toggled id, and exactly one entry is appended per non-null result |
| Registry.BatchErrors | script.js:82-86 | the error records a batch appends are, in index order, the non-null results without coordinates, independent of the markers |
| Registry.FailedRecordsSource | script.js:82-86 | each appended error record comes from a non-null result i without coordinates, paired with the competition name of flattened engagement i and the toggled id |
| Registry.BatchThenRemove | script.js:82-102 | a batch for X on a registry with no X entries, followed by removing X, restores both sequences exactly |
| ErrorList.Render | script.js:45 | one rendered line per error record, line i being the item for record i |
| ErrorList.LineNamesClubAndChampionship | script.js:45 | a rendered line names its club and its championship: both names are read back from the line when the club name holds no `(` |
| ErrorList.RenderAppend | script.js:45 | rendering a concatenation of record lists gives the concatenation of their renderings, so appended records add lines after the old ones |
| ErrorList.BatchRender | script.js:82-88 | after a batch, the error list shows the old lines followed by one line per failed club of the batch, in index order |
| Overlay.OverlayRegistry.constructor | script.js:1-2 | the registry starts with both sequences empty |
| Overlay.OverlayRegistry.CreateClubMarker | script.js:48-72 | the new state is `Insert` of the old one: either one record appended to `errors` with `markers` unchanged, or one marker appended with `errors` unchanged |
| Overlay.OverlayRegistry.AddMarkersForChampionship | script.js:82-88 | the loop leaves the registry at `Batch` of its old value and returns the rendered error list |
| Overlay.OverlayRegistry.RemoveChampionship | script.js:99-103 | returns the markers owned by the id in order, leaves the registry at `Remove` of its old value, and returns the rendered error list |
| Overlay.OverlayRegistry.OnChange | script.js:94-105 | a checked box runs the batch and removes nothing. An unchecked box removes the championship. Both return the re-rendered error list |
| Scenarios.PlottedClub | script.js:82-86 | club C at (45.0, 2.0) for "101" gives one marker owned by "101" at (45.0, 2.0) and no error |
| Scenarios.UnplottedClub | script.js:49-52 | club C at (0, 0) gives no marker and one error record for (C, "101"), and renders one line naming C |
| Scenarios.NullResultSkipped | script.js:83 | a null fetch result adds nothing |
| Scenarios.OnThenOff | script.js:82-102 | toggling "101" on and then off returns both sequences to empty |

## Left out

- The fetch wrappers `fetchClubs`, `fetchEngagements` and `fetchPoules` (script.js:11-42) are network I/O with a fallback to null or `[]`. Their results are inputs to the batch instead.
- The fan-outs with `Promise.all`, the async sequencing (script.js:75-80) and the interleaving of two toggles at await points are not modelled. Each operation runs atomically. The missing guard against a duplicate toggle-on while fetches are in flight is therefore not modelled either.
- Leaflet is not modelled: the map, tile layer, icon derived from the affiliation number, popup text, `addTo` and `removeLayer` (script.js:4-9, 55-60, 69-70). A marker is reduced to its owner and position, and `removeLayer` to the returned sequence of removed markers.
- The DOM is not modelled: the checkbox lookup, the listeners, the `innerHTML` write with `join('')` and the DOMContentLoaded reset (script.js:45, 91-112). Only the sequence of rendered lines is modelled.
- Console output and the banner (script.js:17, 28, 39, 50, 114) are not modelled.
- The model uses exact reals, so IEEE-754 rounding of `+= 0.003` and of the `===` comparison is not captured.
- JavaScript falsy values other than missing, null and 0 (NaN, the empty string) and coordinates delivered as strings are not modelled. Coordinates are numbers or absent.
- An engagement is reduced to its competition name. Club result i is assumed to be the fetch of the club that flattened engagement i references (script.js:79-80). That pairing is not checked.
- Engagements are assumed to be well formed. In the source, an engagement without `equipe.club` throws a TypeError at script.js:79, before any insertion. An engagement without `competition` throws at script.js:84, inside the loop. The registry then keeps the clubs already inserted, the rest of the batch is skipped, and the error list is not re-rendered (script.js:88). The model has no such partial batch.
