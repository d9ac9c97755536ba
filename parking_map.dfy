/**
 * The interactive zone map (src/components/ParkingMap.tsx): a hardcoded zone
 * table, an occupancy colour and an icon per zone, a short label, and the
 * selected zone toggled by clicks, whose details are looked up by id.
 */
module ParkingMap {
  import opened Wrappers
  import opened Palette
  import Text

  datatype Zone = Zone(id: string, name: string, available: int, total: int, kind: string)

  /** The zones drawn on the map (position and description are presentation only). */
  const Zones: seq<Zone> := [
    Zone("zone-a", "Zone A - Principal", 15, 80, "general"),
    Zone("zone-b", "Zone B - Enseignants", 18, 60, "faculty"),
    Zone("zone-c", "Zone C - Visiteurs", 20, 40, "visitor"),
    Zone("zone-d", "Zone D - Personnel", 5, 20, "staff"),
    Zone("zone-e", "Zone E - Électrique", 8, 12, "electric")
  ]

  /** The share of occupied places, `(total - available) / total`, as an exact ratio. */
  function OccupancyRate(available: int, total: int): (rate: real)
    requires total > 0
    ensures rate * total as real == (total - available) as real
  {
    (total - available) as real / total as real
  }

  /** Multiplying by a positive number keeps a strict comparison. */
  lemma MulStrict(a: real, b: real, c: real)
    requires c > 0.0
    ensures a < b <==> a * c < b * c
  {
  }

  /** The rate is below `num / den` exactly when `den * occupied < num * total`. */
  lemma RateBelow(available: int, total: int, num: int, den: int)
    requires total > 0 && den > 0
    ensures OccupancyRate(available, total) < num as real / den as real <==> den * (total - available) < num * total
  {
    var rate, q := OccupancyRate(available, total), num as real / den as real;
    var t, d := total as real, den as real;
    MulStrict(rate, q, t * d);
    assert rate * (t * d) == (rate * t) * d == (total - available) as real * d;
    assert q * (t * d) == (q * d) * t == num as real * t;
  }

  /**
   * getZoneColor: green below half occupied, yellow from half up to (not
   * including) four fifths, red from four fifths on. The thresholds are stated
   * without division.
   */
  function ZoneColor(available: int, total: int): (c: Color)
    requires total > 0
    ensures c != Gray
    ensures c == Green <==> 2 * (total - available) < total
    ensures c == Yellow <==> total <= 2 * (total - available) && 5 * (total - available) < 4 * total
    ensures c == Red <==> 4 * total <= 5 * (total - available)
  {
    var rate := OccupancyRate(available, total);
    RateBelow(available, total, 1, 2);
    RateBelow(available, total, 4, 5);
    if rate < 0.5 then Green
    else if rate < 0.8 then Yellow
    else Red
  }

  /** At exactly half occupied the colour is already yellow, at exactly four fifths already red. */
  lemma ZoneColorBoundaries(available: int, total: int)
    requires total > 0
    ensures 2 * (total - available) == total ==> ZoneColor(available, total) == Yellow
    ensures 5 * (total - available) == 4 * total ==> ZoneColor(available, total) == Red
  {
  }

  /** With the number of places fixed, fewer available places never give a greener colour. */
  lemma ZoneColorMonotone(available: int, fewer: int, total: int)
    requires total > 0
    requires fewer <= available
    ensures Severity(ZoneColor(available, total)) <= Severity(ZoneColor(fewer, total))
  {
  }

  datatype ZoneIcon = Zap | MapPin | NavigationIcon | Car

  /** getZoneIcon: electric, faculty and visitor zones have their own icon; every other type a car. */
  function ZoneIconOf(kind: string): (icon: ZoneIcon)
    ensures icon == Zap <==> kind == "electric"
    ensures icon == MapPin <==> kind == "faculty"
    ensures icon == NavigationIcon <==> kind == "visitor"
    ensures icon == Car <==> kind !in {"electric", "faculty", "visitor"}
  {
    if kind == "electric" then Zap
    else if kind == "faculty" then MapPin
    else if kind == "visitor" then NavigationIcon
    else Car
  }

  /** The label under a zone: its name up to the first `" - "`. */
  function ShortName(name: string): (short: string)
    ensures short <= name
  {
    Text.FirstPart(name, " - ")
  }

  /** `parkingZones.find(z => z.id === id)`: the first zone with that id, if any. */
  function Find(zones: seq<Zone>, id: string): (r: Option<Zone>)
    ensures r.None? <==> forall i :: 0 <= i < |zones| ==> zones[i].id != id
    ensures r.Some? ==> r.value in zones && r.value.id == id
    ensures r.Some? ==> exists i :: 0 <= i < |zones| && zones[i] == r.value && forall j :: 0 <= j < i ==> zones[j].id != id
  {
    if zones == [] then None
    else if zones[0].id == id then Some(zones[0])
    else
      var r := Find(zones[1..], id);
      assert r.Some? ==> exists i :: 0 < i < |zones| && zones[i] == r.value && forall j :: 0 <= j < i ==> zones[j].id != id by {
        if r.Some? {
          var i :| 0 <= i < |zones[1..]| && zones[1..][i] == r.value && forall j :: 0 <= j < i ==> zones[1..][j].id != id;
          assert zones[i + 1] == r.value;
          assert forall j :: 0 <= j < i + 1 ==> zones[j].id != id by {
            forall j | 0 < j < i + 1
              ensures zones[j].id != id
            {
              assert zones[j] == zones[1..][j - 1];
            }
          }
        }
      }
      r
  }

  predicate DistinctZoneIds(zones: seq<Zone>) {
    forall i, j :: 0 <= i < j < |zones| ==> zones[i].id != zones[j].id
  }

  /** When ids are distinct, looking a zone up by its own id finds that zone. */
  lemma {:induction false} FindDistinct(zones: seq<Zone>, k: nat)
    requires DistinctZoneIds(zones)
    requires k < |zones|
    ensures Find(zones, zones[k].id) == Some(zones[k])
  {
    if k > 0 {
      assert zones[0].id != zones[k].id;
      assert zones[1..][k - 1] == zones[k];
      FindDistinct(zones[1..], k - 1);
    }
  }

  /** The hardcoded table: distinct ids, at least one place per zone, and 0 <= available <= total. */
  lemma ZonesWellFormed()
    ensures DistinctZoneIds(Zones)
    ensures forall i :: 0 <= i < |Zones| ==> 0 < Zones[i].total && 0 <= Zones[i].available <= Zones[i].total
  {
  }

  /** Every hardcoded zone's detail lookup finds exactly that zone. */
  lemma ZoneLookupFindsItself(k: nat)
    requires k < |Zones|
    ensures Find(Zones, Zones[k].id) == Some(Zones[k])
  {
    ZonesWellFormed();
    FindDistinct(Zones, k);
  }

  /** The colours the map shows for the hardcoded zones: A red, B, C and D yellow, E green. */
  lemma HardcodedZoneColors()
    ensures ZoneColor(Zones[0].available, Zones[0].total) == Red
    ensures ZoneColor(Zones[1].available, Zones[1].total) == Yellow
    ensures ZoneColor(Zones[2].available, Zones[2].total) == Yellow
    ensures ZoneColor(Zones[3].available, Zones[3].total) == Yellow
    ensures ZoneColor(Zones[4].available, Zones[4].total) == Green
  {
  }

  /** The names of the form "Zone X - ...": the map labels them "Zone X". */
  predicate IsZoneName(name: string) {
    && |name| >= 9
    && name[0] == 'Z' && name[1] == 'o' && name[2] == 'n' && name[3] == 'e' && name[4] == ' '
    && name[5] != ' ' && name[5] != '-'
    && name[6] == ' ' && name[7] == '-' && name[8] == ' '
  }

  lemma ShortNameOfZoneName(name: string)
    requires IsZoneName(name)
    ensures ShortName(name) == name[..6]
  {
    Text.MismatchAt(name, " - ", 0, 0);
    Text.MismatchAt(name, " - ", 1, 0);
    Text.MismatchAt(name, " - ", 2, 0);
    Text.MismatchAt(name, " - ", 3, 0);
    Text.MismatchAt(name, " - ", 4, 1);
    Text.MismatchAt(name, " - ", 5, 0);
    assert name[6..][..3] == " - ";
    Text.FirstPartUnique(name, " - ", name[..6]);
  }

  /** Every hardcoded zone name has the form "Zone X - ...". */
  lemma HardcodedZoneNames()
    ensures forall k :: 0 <= k < |Zones| ==> IsZoneName(Zones[k].name)
  {
  }

  /** So each hardcoded zone is labelled by the first six characters of its name. */
  lemma HardcodedShortNames()
    ensures forall k :: 0 <= k < |Zones| ==> ShortName(Zones[k].name) == Zones[k].name[..6]
  {
    forall k | 0 <= k < |Zones| ensures ShortName(Zones[k].name) == Zones[k].name[..6] {
      HardcodedZoneNames();
      ShortNameOfZoneName(Zones[k].name);
    }
  }

  /** The label of zone A is "Zone A". */
  lemma ShortNameExample()
    ensures ShortName("Zone A - Principal") == "Zone A"
  {
    ShortNameOfZoneName("Zone A - Principal");
  }

  /** The click handler's new selection: deselect a selected zone, otherwise select the clicked one. */
  function Toggled(selected: Option<string>, id: string): (r: Option<string>)
    ensures r.None? <==> selected == Some(id)
    ensures r.Some? ==> r.value == id
  {
    if selected == Some(id) then None else Some(id)
  }

  /** Two clicks on the same zone restore the selection exactly when it was empty or that zone. */
  lemma ToggledTwice(selected: Option<string>, id: string)
    ensures Toggled(Toggled(selected, id), id) == selected <==> selected == None || selected == Some(id)
  {
  }

  /** The details card is shown for a non-null, non-empty (truthy) selection. */
  predicate DetailsShown(selected: Option<string>) {
    selected.Some? && selected.value != ""
  }

  /** The icon in the details card: the selected zone's, or the one for "general" when the id is unknown. */
  function DetailsIcon(id: string): (icon: ZoneIcon)
    ensures Find(Zones, id).None? ==> icon == Car
    ensures Find(Zones, id).Some? ==> icon == ZoneIconOf(Find(Zones, id).value.kind)
  {
    ZoneIconOf(match Find(Zones, id) case Some(z) => z.kind case None => "general")
  }

  /** The map's one piece of state, `selectedZone`. */
  class ParkingMapState {
    var selectedZone: Option<string>

    constructor ()
      ensures selectedZone == None
    {
      selectedZone := None;
    }

    /** onClick on a zone. */
    method ClickZone(id: string)
      modifies this
      ensures selectedZone == Toggled(old(selectedZone), id)
      ensures DetailsShown(selectedZone) <==> old(selectedZone) != Some(id) && id != ""
    {
      selectedZone := if selectedZone == Some(id) then None else Some(id);
    }
  }
}
