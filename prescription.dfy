/**
 * The two-tier burn prescription classifier (`determineStatus`): an hour is
 * "preferred" when it meets the preferred criteria, else "acceptable" when it
 * meets the acceptable ones, else "unsuitable".
 */
module Prescription {
  import opened Wrappers
  import opened Forecast
  import opened WindDirection

  /** A min/max pair read from the form with `parseFloat`; `None` is the NaN
      an empty or unreadable field gives. */
  datatype Range = Range(min: Option<real>, max: Option<real>)

  datatype Criteria = Criteria(temp: Range, rh: Range, windSpeed: Range, windDirs: seq<string>)

  datatype Status = Preferred | Acceptable | Unsuitable
  {
    /** The string `determineStatus` returns. */
    function Name(): string
    {
      match this
      case Preferred => "preferred"
      case Acceptable => "acceptable"
      case Unsuitable => "unsuitable"
    }
  }

  /** JavaScript `x >= bound`: false whenever either side is NaN. */
  predicate AtLeast(x: Option<real>, bound: Option<real>)
  {
    x.Some? && bound.Some? && x.value >= bound.value
  }

  /** JavaScript `x <= bound`: false whenever either side is NaN. */
  predicate AtMost(x: Option<real>, bound: Option<real>)
  {
    x.Some? && bound.Some? && x.value <= bound.value
  }

  function AsNumber(n: Option<int>): Option<real>
  {
    match n
    case None => None
    case Some(v) => Some(v as real)
  }

  /** One tier's four-way test exactly as the code writes it. */
  predicate Meets(r: HourRecord, c: Criteria)
  {
    var temp, rh, wind := Some(r.temp as real), Some(r.rh as real), AsNumber(r.windSpeed);
    AtLeast(temp, c.temp.min) && AtMost(temp, c.temp.max) &&
    AtLeast(rh, c.rh.min) && AtMost(rh, c.rh.max) &&
    AtLeast(wind, c.windSpeed.min) && AtMost(wind, c.windSpeed.max) &&
    MatchesWindDirGroup(c.windDirs, r.windDir)
  }

  /** A value lies in a range whose two bounds were both parsed, ends included. */
  ghost predicate Within(x: real, g: Range)
  {
    g.min.Some? && g.max.Some? && g.min.value <= x <= g.max.value
  }

  /** A tier holds: every bound parsed, the wind speed parsed, each value in
      its closed range, and some ticked label's group contains the direction. */
  ghost predicate TierHolds(r: HourRecord, c: Criteria)
  {
    r.windSpeed.Some? &&
    Within(r.temp as real, c.temp) &&
    Within(r.rh as real, c.rh) &&
    Within(r.windSpeed.value as real, c.windSpeed) &&
    exists i :: 0 <= i < |c.windDirs| &&
      c.windDirs[i] in WindDirectionGroups && r.windDir in WindDirectionGroups[c.windDirs[i]]
  }

  /** The code's tier test is the closed-range tier: a NaN bound or speed
      fails every comparison that mentions it. */
  lemma MeetsIsTierHolds(r: HourRecord, c: Criteria)
    ensures Meets(r, c) <==> TierHolds(r, c)
  {
  }

  function DetermineStatus(r: HourRecord, preferred: Criteria, acceptable: Criteria): (s: Status)
    ensures s == Preferred <==> TierHolds(r, preferred)
    ensures s == Acceptable <==> !TierHolds(r, preferred) && TierHolds(r, acceptable)
    ensures s == Unsuitable <==> !TierHolds(r, preferred) && !TierHolds(r, acceptable)
  {
    if Meets(r, preferred) then Preferred
    else if Meets(r, acceptable) then Acceptable
    else Unsuitable
  }

  /** The preferred tier wins whatever the acceptable criteria are. */
  lemma PreferredWhateverAcceptable(r: HourRecord, preferred: Criteria, a1: Criteria, a2: Criteria)
    ensures DetermineStatus(r, preferred, a1) == Preferred <==> DetermineStatus(r, preferred, a2) == Preferred
  {
  }

  /** The three outcomes have three distinct names. */
  lemma StatusNamesDistinct(s: Status, t: Status)
    ensures s.Name() == t.Name() <==> s == t
  {
  }

  /** A bound left unparsed makes its tier fail, and so does a wind speed
      `parseInt` could not read. */
  lemma UnparsedFailsTier(r: HourRecord, c: Criteria)
    requires c.temp.min.None? || c.temp.max.None? || c.rh.min.None? || c.rh.max.None? ||
             c.windSpeed.min.None? || c.windSpeed.max.None? || r.windSpeed.None?
    ensures !TierHolds(r, c)
  {
  }

  /** Ranges are closed: a record whose every value equals both bounds of
      its preferred range, with a ticked label owning its direction, is
      preferred. */
  lemma BoundsInclusive(r: HourRecord, preferred: Criteria, acceptable: Criteria, k: nat)
    requires r.windSpeed.Some?
    requires preferred.temp == Range(Some(r.temp as real), Some(r.temp as real))
    requires preferred.rh == Range(Some(r.rh as real), Some(r.rh as real))
    requires preferred.windSpeed == Range(Some(r.windSpeed.value as real), Some(r.windSpeed.value as real))
    requires k < |preferred.windDirs| && preferred.windDirs[k] in WindDirectionGroups
    requires r.windDir in WindDirectionGroups[preferred.windDirs[k]]
    ensures DetermineStatus(r, preferred, acceptable) == Preferred
  {
  }

  /** With no direction ticked in either tier every hour is unsuitable. */
  lemma NoDirectionsMeansUnsuitable(r: HourRecord, preferred: Criteria, acceptable: Criteria)
    requires preferred.windDirs == [] && acceptable.windDirs == []
    ensures DetermineStatus(r, preferred, acceptable) == Unsuitable
  {
  }
}
