/**
 * The user-facing list of clubs that could not be plotted: one list item per error record,
 * in the order of the registry's error sequence.
 */
module ErrorList {
  import opened Wrappers
  import opened Seqs
  import opened Registry

  const Prefix: string := "<li>Impossible de charger les coordonnées pour : "
  const Separator: string := " ("
  const Suffix: string := ")</li>"

  /** The list item for one error record: the club's name, then the championship's name in parentheses. */
  function Line(e: ErrorRecord): (line: string)
    ensures Prefix <= line
    ensures |line| == |Prefix| + |e.club.name| + |Separator| + |e.championnat.name| + |Suffix|
  {
    Prefix + e.club.name + Separator + e.championnat.name + Suffix
  }

  /** The rendered error list (`errors.map(...)`): one line per record, in record order. */
  function Render(errs: seq<ErrorRecord>): (lines: seq<string>)
    ensures |lines| == |errs|
    ensures forall i :: 0 <= i < |errs| ==> lines[i] == Line(errs[i])
  {
    if errs == [] then [] else [Line(errs[0])] + Render(errs[1..])
  }

  /** The position of the first `c` in `s`, or `|s|` when there is none. */
  function IndexOf(s: string, c: char): (k: nat)
    ensures k <= |s|
    ensures k < |s| ==> s[k] == c
    ensures forall j :: 0 <= j < k ==> s[j] != c
  {
    if s == [] || s[0] == c then 0 else 1 + IndexOf(s[1..], c)
  }

  /**
   * Reads the club name and the championship name back out of a rendered line; the club name
   * ends at the first opening parenthesis.
   */
  function ParseLine(line: string): Option<(string, string)> {
    if |line| < |Prefix| + |Suffix| || line[..|Prefix|] != Prefix || line[|line| - |Suffix|..] != Suffix then None
    else
      var body := line[|Prefix|..|line| - |Suffix|];
      var k := IndexOf(body, '(');
      if k == 0 || k == |body| || body[k - 1] != ' ' then None
      else Some((body[..k - 1], body[k + 1..]))
  }

  lemma {:induction false} IndexOfAfter(a: string, b: string, c: char)
    requires c !in a
    ensures IndexOf(a + b, c) == |a| + IndexOf(b, c)
  {
    if a != [] {
      assert (a + b)[0] == a[0];
      assert (a + b)[1..] == a[1..] + b;
      IndexOfAfter(a[1..], b, c);
    } else {
      assert a + b == b;
    }
  }

  /**
   * A rendered line names its club and its championship: as long as the club's name holds no
   * opening parenthesis, both names can be read back from the line.
   */
  lemma LineNamesClubAndChampionship(e: ErrorRecord)
    requires '(' !in e.club.name
    ensures ParseLine(Line(e)) == Some((e.club.name, e.championnat.name))
  {
    var name, champ := e.club.name, e.championnat.name;
    var line := Line(e);
    assert line == Prefix + (name + Separator + champ) + Suffix;
    assert line[..|Prefix|] == Prefix;
    assert line[|line| - |Suffix|..] == Suffix;
    var body := line[|Prefix|..|line| - |Suffix|];
    assert body == name + Separator + champ;
    assert body == (name + " ") + ("(" + champ);
    IndexOfAfter(name + " ", "(" + champ, '(');
    var k := IndexOf(body, '(');
    assert k == |name| + 1;
    assert body[..k - 1] == name;
    assert body[k + 1..] == champ;
  }

  /** Rendering a concatenation renders each part: new records add their lines after the old ones. */
  lemma {:induction false} RenderAppend(a: seq<ErrorRecord>, b: seq<ErrorRecord>)
    ensures Render(a + b) == Render(a) + Render(b)
  {
    if a != [] {
      assert (a + b)[1..] == a[1..] + b;
      RenderAppend(a[1..], b);
    } else {
      assert a + b == b;
    }
  }

  /**
   * After a batch for `champId`, the error list shows the lines it showed before, followed by one
   * line per non-null result without coordinates, each naming that club and the competition of
   * the engagement at the same index.
   */
  lemma BatchRender(r: Overlays, champId: ChampId, flat: seq<Engagement>, results: seq<Option<Club>>)
    requires |results| <= |flat|
    ensures Render(Batch(r, champId, flat, results).errors)
         == Render(r.errors) + Render(FailedRecords(champId, flat, results))
  {
    BatchErrors(r, champId, flat, results);
    RenderAppend(r.errors, FailedRecords(champId, flat, results));
  }
}
