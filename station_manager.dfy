/**
 * `StationManager`: one station per known name, and memoised Organization and
 * Location resources per station. A Location's managing organization is the
 * station's Organization, created on demand. Resource ids are fresh UUIDs,
 * passed in as parameters.
 */
module StationManager {
  import opened Wrappers
  import opened Text

  /** MStation: a key carrying the station's name. */
  datatype Station = Station(stationName: string)

  datatype Organization = Organization(
    id: string, identifierSystem: string, identifierValue: string, identifierType: string,
    organizationType: string, name: string)

  datatype Location = Location(
    id: string, identifierSystem: string, identifierValue: string, locationType: string,
    physicalType: string, name: string, managingOrganization: string)

  const OrganisationSystem: string := "http://www.imi-mimic.de/organisation/"
  const LocationSystem: string := "http://www.imi-mimic.de/location/"

  /** The string without its leading whitespace. */
  function DropSpaces(s: string): (r: string)
    ensures |r| <= |s| && r == s[|s| - |r|..]
    ensures r == [] || !IsSpace(r[0])
  {
    if s != [] && IsSpace(s[0]) then DropSpaces(s[1..]) else s
  }

  /** `replaceAll("\\s+", "_")`: every maximal run of whitespace becomes one underscore. */
  function ReplaceSpaceRuns(s: string): (r: string)
    ensures |r| <= |s|
    ensures forall i :: 0 <= i < |r| ==> !IsSpace(r[i])
    decreases |s|
  {
    if s == [] then []
    else if IsSpace(s[0]) then "_" + ReplaceSpaceRuns(DropSpaces(s))
    else [s[0]] + ReplaceSpaceRuns(s[1..])
  }

  /** A name without whitespace is kept as it is. */
  lemma {:induction false} ReplaceSpaceRunsKeepsClean(s: string)
    requires forall i :: 0 <= i < |s| ==> !IsSpace(s[i])
    ensures ReplaceSpaceRuns(s) == s
    decreases |s|
  {
    if s != [] {
      ReplaceSpaceRunsKeepsClean(s[1..]);
    }
  }

  /** Blank or ending in a character that is not whitespace: a whitespace run cannot continue past its end. */
  predicate EndsClean(s: string)
  {
    s == [] || !IsSpace(s[|s| - 1])
  }

  /** Leading whitespace that stops inside `p` is dropped the same way whatever follows. */
  lemma {:induction false} DropSpacesConcat(p: string, t: string)
    requires p != [] && EndsClean(p)
    ensures DropSpaces(p + t) == DropSpaces(p) + t
    decreases |p|
  {
    if IsSpace(p[0]) {
      assert (p + t)[1..] == p[1..] + t;
      DropSpacesConcat(p[1..], t);
    }
  }

  /** Dropping the leading whitespace of `p` keeps its last character, when that is not whitespace. */
  lemma {:induction false} DropSpacesKeepsEnd(p: string)
    requires p != [] && EndsClean(p)
    ensures DropSpaces(p) != [] && EndsClean(DropSpaces(p)) && |DropSpaces(p)| <= |p|
    decreases |p|
  {
    if IsSpace(p[0]) {
      assert |p| > 1 && p[1..][|p| - 2] == p[|p| - 1];
      DropSpacesKeepsEnd(p[1..]);
    }
  }

  /** Leading whitespace up to a character that is not whitespace is dropped entirely. */
  lemma {:induction false} DropSpacesRun(w: string, t: string)
    requires forall i :: 0 <= i < |w| ==> IsSpace(w[i])
    requires t == [] || !IsSpace(t[0])
    ensures DropSpaces(w + t) == t
    decreases |w|
  {
    if w != [] {
      assert (w + t)[1..] == w[1..] + t;
      DropSpacesRun(w[1..], t);
    }
  }

  /** Cut after a character that is not whitespace, the replacement works on the two parts separately. */
  lemma {:induction false} ReplaceSpaceRunsConcat(p: string, t: string)
    requires EndsClean(p)
    ensures ReplaceSpaceRuns(p + t) == ReplaceSpaceRuns(p) + ReplaceSpaceRuns(t)
    decreases |p|
  {
    if p == [] {
      assert p + t == t;
    } else if IsSpace(p[0]) {
      var d := DropSpaces(p);
      DropSpacesConcat(p, t);
      DropSpacesKeepsEnd(p);
      assert (p + t)[0] == p[0];
      calc {
        ReplaceSpaceRuns(p + t);
        "_" + ReplaceSpaceRuns(d + t);
        { ReplaceSpaceRunsConcat(d, t); }
        "_" + (ReplaceSpaceRuns(d) + ReplaceSpaceRuns(t));
        { ConcatAssoc("_", ReplaceSpaceRuns(d), ReplaceSpaceRuns(t)); }
        ("_" + ReplaceSpaceRuns(d)) + ReplaceSpaceRuns(t);
      }
    } else {
      assert (p + t)[0] == p[0] && (p + t)[1..] == p[1..] + t;
      calc {
        ReplaceSpaceRuns(p + t);
        [p[0]] + ReplaceSpaceRuns(p[1..] + t);
        { ReplaceSpaceRunsConcat(p[1..], t); }
        [p[0]] + (ReplaceSpaceRuns(p[1..]) + ReplaceSpaceRuns(t));
        { ConcatAssoc([p[0]], ReplaceSpaceRuns(p[1..]), ReplaceSpaceRuns(t)); }
        ([p[0]] + ReplaceSpaceRuns(p[1..])) + ReplaceSpaceRuns(t);
      }
    }
  }

  lemma ConcatAssoc(a: string, b: string, c: string)
    ensures a + (b + c) == (a + b) + c
  {
  }

  /** A run of whitespace, of any length, up to a character that is not whitespace becomes one underscore. */
  lemma {:induction false} RunAtFront(w: string, t: string)
    requires w != [] && forall i :: 0 <= i < |w| ==> IsSpace(w[i])
    requires t == [] || !IsSpace(t[0])
    ensures ReplaceSpaceRuns(w + t) == "_" + ReplaceSpaceRuns(t)
  {
    assert (w + t)[0] == w[0];
    DropSpacesRun(w, t);
  }

  /**
   * A maximal run of whitespace between `p` and `t`, of any length and any
   * mix of whitespace characters, becomes a single underscore.
   */
  lemma RunBecomesOneUnderscore(p: string, w: string, t: string)
    requires EndsClean(p)
    requires w != [] && forall i :: 0 <= i < |w| ==> IsSpace(w[i])
    requires t == [] || !IsSpace(t[0])
    ensures ReplaceSpaceRuns(p + w + t) == ReplaceSpaceRuns(p) + "_" + ReplaceSpaceRuns(t)
  {
    calc {
      ReplaceSpaceRuns(p + w + t);
      { ConcatAssoc(p, w, t); }
      ReplaceSpaceRuns(p + (w + t));
      { ReplaceSpaceRunsConcat(p, w + t); }
      ReplaceSpaceRuns(p) + ReplaceSpaceRuns(w + t);
      { RunAtFront(w, t); }
      ReplaceSpaceRuns(p) + ("_" + ReplaceSpaceRuns(t));
      { ConcatAssoc(ReplaceSpaceRuns(p), "_", ReplaceSpaceRuns(t)); }
      ReplaceSpaceRuns(p) + "_" + ReplaceSpaceRuns(t);
    }
  }

  /** The identifier-system suffix: the trimmed name with whitespace runs replaced by "_". */
  function SystemSuffix(station: Station): string
  {
    ReplaceSpaceRuns(Trim(station.stationName))
  }

  /** The ward's Organization: named by the raw ward name, identified by the trimmed one under a whitespace-free system. */
  function NewOrganization(station: Station, uuid: string): (o: Organization)
    ensures o.id == uuid && o.name == station.stationName && o.identifierValue == Trim(station.stationName)
    ensures OrganisationSystem <= o.identifierSystem
    ensures forall i :: |OrganisationSystem| <= i < |o.identifierSystem| ==> !IsSpace(o.identifierSystem[i])
  {
    Organization(uuid, OrganisationSystem + SystemSuffix(station), Trim(station.stationName),
                 "XX", "dept", station.stationName)
  }

  /** The ward's Location, managed by the ward's Organization and identified like it. */
  function NewLocation(station: Station, uuid: string, organizationId: string): (l: Location)
    ensures l.id == uuid && l.name == station.stationName && l.identifierValue == Trim(station.stationName)
    ensures l.managingOrganization == organizationId
    ensures LocationSystem <= l.identifierSystem
    ensures forall i :: |LocationSystem| <= i < |l.identifierSystem| ==> !IsSpace(l.identifierSystem[i])
  {
    Location(uuid, LocationSystem + SystemSuffix(station), Trim(station.stationName),
             "_ServiceDeliveryLocationRoleType", "wa", station.stationName, organizationId)
  }

  /** Organization and Location of a station agree on identifier value and on the system suffix. */
  lemma IdentifiersAgree(station: Station, u1: string, u2: string, org: string)
    ensures var o := NewOrganization(station, u1); var l := NewLocation(station, u2, org);
      |o.identifierSystem| >= |OrganisationSystem| && |l.identifierSystem| >= |LocationSystem| &&
      o.identifierSystem[|OrganisationSystem|..] == l.identifierSystem[|LocationSystem|..] &&
      o.identifierValue == l.identifierValue == Trim(station.stationName)
  {
    var suffix := SystemSuffix(station);
    assert (OrganisationSystem + suffix)[|OrganisationSystem|..] == suffix;
    assert (LocationSystem + suffix)[|LocationSystem|..] == suffix;
  }

  /** The station map the constructor builds: every non-null name, each to its own station. */
  function StationsOf(stationNames: seq<Option<string>>): (m: map<string, Station>)
  {
    if stationNames == [] then map[]
    else
      var last := stationNames[|stationNames| - 1];
      var m := StationsOf(stationNames[..|stationNames| - 1]);
      if last.Some? then m[last.value := Station(last.value)] else m
  }

  /** Exactly the non-null names are keys, each mapped to the station of that name. */
  lemma {:induction false} StationsOfKeys(stationNames: seq<Option<string>>, name: string)
    ensures name in StationsOf(stationNames) <==> Some(name) in stationNames
    ensures name in StationsOf(stationNames) ==> StationsOf(stationNames)[name] == Station(name)
  {
    if stationNames != [] {
      var init := stationNames[..|stationNames| - 1];
      StationsOfKeys(init, name);
      assert stationNames == init + [stationNames[|stationNames| - 1]];
    }
  }

  /** Every station is stored under its own name. */
  ghost predicate NamedStations(m: map<string, Station>)
  {
    forall k :: k in m ==> m[k] == Station(k)
  }

  /** The organization carries the station's name. */
  predicate IsOrganizationOf(o: Organization, station: Station)
  {
    o.name == station.stationName && o.organizationType == "dept"
  }

  /** The location is a ward carrying the station's name and managed by the given organization. */
  predicate IsLocationOf(l: Location, station: Station, organizationId: string)
  {
    l.name == station.stationName && l.physicalType == "wa" && l.managingOrganization == organizationId
  }

  class Manager {
    var stationMap: map<string, Station>
    var orgaMap: map<Station, Organization>
    var locationMap: map<Station, Location>

    /**
     * Every stored resource carries its own station's name, and each stored
     * Location is a ward managed by the stored Organization of its station.
     */
    ghost predicate Valid()
      reads this
    {
      NamedStations(stationMap) &&
      (forall s :: s in orgaMap ==> IsOrganizationOf(orgaMap[s], s)) &&
      forall s :: s in locationMap ==> s in orgaMap && IsLocationOf(locationMap[s], s, orgaMap[s].id)
    }

    constructor(stationNames: seq<Option<string>>)
      ensures Valid()
      ensures stationMap == StationsOf(stationNames)
      ensures orgaMap == map[] && locationMap == map[]
    {
      var stations := map[];
      var i := 0;
      while i < |stationNames|
        invariant 0 <= i <= |stationNames|
        invariant stations == StationsOf(stationNames[..i])
      {
        assert stationNames[..i + 1][..i] == stationNames[..i];
        var stationName := stationNames[i];
        if stationName.Some? {
          stations := stations[stationName.value := Station(stationName.value)];
        }
        i := i + 1;
      }
      assert stationNames[..i] == stationNames;
      forall k | k in stations
        ensures stations[k] == Station(k)
      {
        StationsOfKeys(stationNames, k);
      }
      stationMap := stations;
      orgaMap := map[];
      locationMap := map[];
    }

    /** A null name looks up "Unknown"; an unknown name gives null. */
    function GetStation(stationName: Option<string>): (r: Option<Station>)
      requires Valid()
      reads this
      ensures var key := if stationName.Some? then stationName.value else "Unknown";
        (r.Some? <==> key in stationMap) && (r.Some? ==> r.value == Station(key))
    {
      var key := if stationName.Some? then stationName.value else "Unknown";
      if key in stationMap then Some(stationMap[key]) else None
    }

    method GetOrganization(station: Station, uuid: string) returns (orga: Organization)
      requires Valid()
      modifies this`orgaMap
      ensures Valid()
      ensures station in old(orgaMap) ==> orga == old(orgaMap)[station] && orgaMap == old(orgaMap)
      ensures station !in old(orgaMap) ==> orga == NewOrganization(station, uuid) && orgaMap == old(orgaMap)[station := orga]
      ensures station in orgaMap && orgaMap[station] == orga
    {
      if station in orgaMap {
        return orgaMap[station];
      }
      orga := NewOrganization(station, uuid);
      orgaMap := orgaMap[station := orga];
    }

    /** `organizationUuid` is used only when the station has no Organization yet. */
    method GetLocation(station: Station, uuid: string, organizationUuid: string) returns (location: Location)
      requires Valid()
      modifies this`orgaMap, this`locationMap
      ensures Valid()
      ensures station in old(locationMap) ==>
        location == old(locationMap)[station] && locationMap == old(locationMap) && orgaMap == old(orgaMap)
      ensures station !in old(locationMap) ==>
        station in orgaMap && location == NewLocation(station, uuid, orgaMap[station].id) && locationMap == old(locationMap)[station := location]
      ensures station in orgaMap && location.managingOrganization == orgaMap[station].id
      ensures station in locationMap && locationMap[station] == location
      ensures station in old(orgaMap) ==> orgaMap == old(orgaMap)
    {
      if station in locationMap {
        return locationMap[station];
      }
      var orga := GetOrganization(station, organizationUuid);
      location := NewLocation(station, uuid, orga.id);
      locationMap := locationMap[station := location];
    }
  }
}
