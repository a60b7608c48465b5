/**
 * The wind-direction groups: each of the eight octant labels a user can tick
 * stands for three of the sixteen compass points the hourly forecast reports.
 */
module WindDirection {

  const WindDirectionGroups: map<string, seq<string>> := map[
    "N"  := ["N", "NNE", "NNW"],
    "NE" := ["NE", "NNE", "ENE"],
    "E"  := ["E", "ENE", "ESE"],
    "SE" := ["SE", "SSE", "ESE"],
    "S"  := ["S", "SSE", "SSW"],
    "SW" := ["SW", "SSW", "WSW"],
    "W"  := ["W", "WSW", "WNW"],
    "NW" := ["NW", "NNW", "WNW"]
  ]

  /** The eight octants clockwise from north. */
  const Octants: seq<string> := ["N", "NE", "E", "SE", "S", "SW", "W", "NW"]

  /** Intermediates[i] is the point between Octants[i] and the next octant clockwise. */
  const Intermediates: seq<string> := ["NNE", "ENE", "ESE", "SSE", "SSW", "WSW", "WNW", "NNW"]

  predicate IsCompassPoint(d: string)
  {
    d in Octants || d in Intermediates
  }

  /** `windDirectionGroups[octant] || []`: an unknown octant has no points. */
  function GroupFor(octant: string): seq<string>
  {
    if octant in WindDirectionGroups then WindDirectionGroups[octant] else []
  }

  /** `userDirs.some(...)`: some ticked label's group holds the direction. */
  function MatchesWindDirGroup(userDirs: seq<string>, forecastDir: string): (m: bool)
    ensures m <==> (exists i :: 0 <= i < |userDirs| &&
                     userDirs[i] in WindDirectionGroups && forecastDir in WindDirectionGroups[userDirs[i]])
  {
    if userDirs == [] then false
    else forecastDir in GroupFor(userDirs[0]) || MatchesWindDirGroup(userDirs[1..], forecastDir)
  }

  /** The groups are keyed by exactly the eight octants. */
  lemma GroupKeys()
    ensures forall k :: k in WindDirectionGroups <==> k in Octants
  {
  }

  /** The groups overlap: an octant belongs to its own group only, and an
      intermediate point to the groups of the two octants on either side. */
  lemma GroupOwners(i: nat, k: string)
    requires i < 8 && k in WindDirectionGroups
    ensures Octants[i] in WindDirectionGroups[k] <==> k == Octants[i]
    ensures Intermediates[i] in WindDirectionGroups[k] <==> k == Octants[i] || k == Octants[(i + 1) % 8]
  {
    GroupKeys();
    var o := k == "N" || k == "NE" || k == "E" || k == "SE" || k == "S" || k == "SW" || k == "W" || k == "NW";
    assert o;
    OctantOwner(i, k);
    IntermediateOwners(i, k);
  }

  lemma OctantOwner(i: nat, k: string)
    requires i < 8 && k in Octants
    ensures k in WindDirectionGroups
    ensures Octants[i] in WindDirectionGroups[k] <==> k == Octants[i]
  {
    GroupKeys();
    if k == "N" {} else if k == "NE" {} else if k == "E" {} else if k == "SE" {}
    else if k == "S" {} else if k == "SW" {} else if k == "W" {} else {}
  }

  lemma IntermediateOwners(i: nat, k: string)
    requires i < 8 && k in Octants
    ensures k in WindDirectionGroups
    ensures Intermediates[i] in WindDirectionGroups[k] <==> k == Octants[i] || k == Octants[(i + 1) % 8]
  {
    GroupKeys();
    if k == "N" {} else if k == "NE" {} else if k == "E" {} else if k == "SE" {}
    else if k == "S" {} else if k == "SW" {} else if k == "W" {} else {}
  }

  /** Each group is its own octant and the two intermediate points beside it. */
  lemma {:induction false} GroupContents(i: nat)
    requires i < 8
    ensures Octants[i] in WindDirectionGroups
    ensures WindDirectionGroups[Octants[i]] == [Octants[i], Intermediates[i], Intermediates[(i + 7) % 8]] ||
            WindDirectionGroups[Octants[i]] == [Octants[i], Intermediates[(i + 7) % 8], Intermediates[i]]
  {
    if i == 0 {} else if i == 1 {} else if i == 2 {} else if i == 3 {}
    else if i == 4 {} else if i == 5 {} else if i == 6 {} else {}
  }

  /** A direction that is not one of the sixteen compass points matches no
      selection. */
  lemma UnknownDirectionNeverMatches(userDirs: seq<string>, d: string)
    requires !IsCompassPoint(d)
    ensures !MatchesWindDirGroup(userDirs, d)
  {
    GroupKeys();
    forall k | k in WindDirectionGroups ensures d !in WindDirectionGroups[k] {
      assert k in Octants;
    }
  }

  /** With nothing ticked no direction matches. */
  lemma EmptySelectionNeverMatches(d: string)
    ensures !MatchesWindDirGroup([], d)
  {
  }

  /** NNE matches a selection of N alone and one of NE alone; N does not
      match NE. */
  lemma OverlapExample()
    ensures MatchesWindDirGroup(["N"], "NNE") && MatchesWindDirGroup(["NE"], "NNE")
    ensures MatchesWindDirGroup(["N"], "N") && !MatchesWindDirGroup(["NE"], "N")
  {
    GroupOwners(0, "N");
    GroupOwners(0, "NE");
  }
}
