/** Concrete toggles of championship "101" with one pool holding one engagement for club C. */
module Scenarios {
  import opened Wrappers
  import opened Seqs
  import opened Registry
  import opened ErrorList

  const Pools: seq<seq<Engagement>> := [[Engagement("National 3")]]

  /** Club C with coordinates (45.0, 2.0) gives one marker owned by "101" at that position and no error. */
  lemma PlottedClub()
    ensures var c := Club("C", Some(45.0), Some(2.0));
      Batch(Empty, "101", Concat(Pools), [Some(c)]) == Overlays([Marker("101", 45.0, 2.0)], [])
  {
  }

  /** Club C at (0, 0) gives no marker, one error record for (C, "101") and one line naming C. */
  lemma UnplottedClub()
    ensures var c := Club("C", Some(0.0), Some(0.0));
      var b := Batch(Empty, "101", Concat(Pools), [Some(c)]);
      && b == Overlays([], [ErrorRecord(c, Championship("101", "National 3"))])
      && |Render(b.errors)| == 1
      && ParseLine(Render(b.errors)[0]) == Some(("C", "National 3"))
  {
    var c := Club("C", Some(0.0), Some(0.0));
    LineNamesClubAndChampionship(ErrorRecord(c, Championship("101", "National 3")));
  }

  /** A failed club fetch adds nothing. */
  lemma NullResultSkipped()
    ensures Batch(Empty, "101", Concat(Pools), [None]) == Empty
  {
  }

  /** Toggling "101" on and then off returns both sequences to empty, whatever the fetches returned. */
  lemma OnThenOff(flat: seq<Engagement>, results: seq<Option<Club>>)
    requires |results| <= |flat|
    ensures Remove(Batch(Empty, "101", flat, results), "101") == Empty
  {
    BatchThenRemove(Empty, "101", flat, results);
  }
}
